/** The three-step password reset page: find the account by employee id,
    answer its security question, then choose a new password. */
module PasswordReset {
  import opened Common
  import opened Records
  import opened Browser

  /** The two strings are equal once ASCII letters are lowered. */
  predicate SameIgnoringCase(a: string, b: string) {
    |a| == |b| && forall i :: 0 <= i < |a| ==> LowerChar(a[i]) == LowerChar(b[i])
  }

  /** The check of `handleVerifyAnswer`: a non-blank answer equal to the
      stored one up to case. The typed answer is not trimmed for the
      comparison, and an account without a stored answer never passes. */
  function AnswerAccepted(stored: Option<string>, given: string): (ok: bool)
    ensures ok <==> && (exists i :: 0 <= i < |given| && !IsSpace(given[i]))
                    && stored.Some? && SameIgnoringCase(stored.value, given)
  {
    TrimEmptyIff(given);
    Trim(given) != "" && stored.Some? && LowerCase(stored.value) == LowerCase(given)
  }

  lemma LowerCharKeepsSpace(c: char)
    ensures IsSpace(LowerChar(c)) <==> IsSpace(c)
    ensures LowerChar(LowerChar(c)) == LowerChar(c)
  {
  }

  /** Typing the answer in another case makes no difference. */
  lemma AnswerIgnoresCase(stored: Option<string>, given: string)
    ensures AnswerAccepted(stored, LowerCase(given)) == AnswerAccepted(stored, given)
  {
    var lowered := LowerCase(given);
    forall i | 0 <= i < |given|
      ensures (IsSpace(lowered[i]) <==> IsSpace(given[i])) && LowerChar(lowered[i]) == LowerChar(given[i])
    {
      LowerCharKeepsSpace(given[i]);
    }
    if stored.Some? {
      assert SameIgnoringCase(stored.value, lowered) <==> SameIgnoringCase(stored.value, given);
    }
    if exists i :: 0 <= i < |given| && !IsSpace(given[i]) {
      var i :| 0 <= i < |given| && !IsSpace(given[i]);
      assert !IsSpace(lowered[i]);
    }
    if exists i :: 0 <= i < |lowered| && !IsSpace(lowered[i]) {
      var i :| 0 <= i < |lowered| && !IsSpace(lowered[i]);
      assert !IsSpace(given[i]);
    }
  }

  /** The stored users after `handleResetPassword` writes the new password
      into the first account with the id; `None` when there is no such
      account, where `users[-1].password = …` throws. */
  function ResetPassword(users: seq<User>, empId: string, newPassword: string): (r: Option<seq<User>>)
    ensures r.None? <==> !Registered(users, empId)
    ensures r.Some? ==> |r.value| == |users|
    ensures r.Some? ==> forall i :: 0 <= i < |users| ==>
              r.value[i] == if i == FirstIndex(users, EmpIdIs(empId)) then users[i].(password := Some(newPassword)) else users[i]
  {
    var k := FirstIndex(users, EmpIdIs(empId));
    if k < 0 then None else Some(users[k := users[k].(password := Some(newPassword))])
  }

  /** After a reset the account keeps its position as the first with its id,
      and its password is the new one. */
  lemma ResetKeepsAccount(users: seq<User>, empId: string, newPassword: string)
    requires Registered(users, empId)
    ensures var k := FirstIndex(users, EmpIdIs(empId));
            var r := ResetPassword(users, empId, newPassword).value;
            && FirstIndex(r, EmpIdIs(empId)) == k
            && r[k].password == Some(newPassword)
            && r[k].(password := users[k].password) == users[k]
  {
    var k := FirstIndex(users, EmpIdIs(empId));
    FirstIndexAfterUpdate(users, EmpIdIs(empId), users[k].(password := Some(newPassword)));
  }

  class ForgotPasswordPage {
    const store: Storage
    var step: int
    var empId: string
    var user: Option<User>
    var securityAnswer: string
    var newPassword: string
    var confirmPassword: string

    /** Step 2 and 3 belong to the account found in step 1, and step 3 is
        reached only with an accepted answer. */
    predicate Valid()
      reads this
    {
      && 1 <= step <= 3
      && (step >= 2 ==> user.Some? && user.value.empId == empId)
      && (step == 3 ==> AnswerAccepted(user.value.securityAnswer, securityAnswer))
    }

    constructor (store: Storage)
      ensures Valid() && this.store == store
      ensures step == 1 && empId == "" && user == None
      ensures securityAnswer == "" && newPassword == "" && confirmPassword == ""
    {
      this.store := store;
      step := 1;
      empId := "";
      user := None;
      securityAnswer := "";
      newPassword := "";
      confirmPassword := "";
    }

    /** The employee id input, shown in step 1 only. */
    method SetEmpId(value: string)
      requires Valid() && step == 1
      modifies this
      ensures Valid() && empId == value
      ensures step == old(step) && user == old(user) && securityAnswer == old(securityAnswer)
      ensures newPassword == old(newPassword) && confirmPassword == old(confirmPassword)
    {
      empId := value;
    }

    /** The answer input, shown in step 2 only. */
    method SetSecurityAnswer(value: string)
      requires Valid() && step == 2
      modifies this
      ensures Valid() && securityAnswer == value
      ensures step == old(step) && empId == old(empId) && user == old(user)
      ensures newPassword == old(newPassword) && confirmPassword == old(confirmPassword)
    {
      securityAnswer := value;
    }

    /** The two password inputs, shown in step 3 only. */
    method SetPasswords(password: string, confirmation: string)
      requires Valid() && step == 3
      modifies this
      ensures Valid() && newPassword == password && confirmPassword == confirmation
      ensures step == old(step) && empId == old(empId) && user == old(user)
      ensures securityAnswer == old(securityAnswer)
    {
      newPassword := password;
      confirmPassword := confirmation;
    }

    /** `handleNextStep1`: step 2 only for an id some stored account has. */
    method HandleNextStep1()
      requires Valid() && step == 1
      modifies this
      ensures Valid()
      ensures Registered(store.users, empId) ==>
                step == 2 && user == Some(store.users[FirstIndex(store.users, EmpIdIs(empId))])
      ensures !Registered(store.users, empId) ==> step == 1 && user == old(user)
      ensures empId == old(empId) && securityAnswer == old(securityAnswer)
      ensures newPassword == old(newPassword) && confirmPassword == old(confirmPassword)
    {
      var users := store.users;
      var found := FindIndex(users, EmpIdIs(empId));
      if found == -1 {
        return;
      }
      user := Some(users[found]);
      step := 2;
    }

    /** `handleVerifyAnswer`: step 3 exactly when the answer is accepted. */
    method HandleVerifyAnswer()
      requires Valid() && step == 2
      modifies this
      ensures Valid()
      ensures step == if AnswerAccepted(old(user).value.securityAnswer, securityAnswer) then 3 else 2
      ensures empId == old(empId) && user == old(user) && securityAnswer == old(securityAnswer)
      ensures newPassword == old(newPassword) && confirmPassword == old(confirmPassword)
    {
      if Trim(securityAnswer) == "" {
        return;
      }
      var stored := user.value.securityAnswer;
      if stored.None? || LowerCase(stored.value) != LowerCase(securityAnswer) {
        return;
      }
      step := 3;
    }

    /** `handleResetPassword`: differing passwords change nothing; otherwise
        the account's password is replaced and the page returns to login. */
    method HandleResetPassword() returns (outcome: Outcome)
      requires Valid() && step == 3
      modifies store
      ensures store.leaveRequests == old(store.leaveRequests) && store.currentUser == old(store.currentUser)
      ensures newPassword != confirmPassword ==> outcome == Stay && store.users == old(store.users)
      ensures newPassword == confirmPassword ==>
                match ResetPassword(old(store.users), empId, newPassword)
                case None => outcome == Threw && store.users == old(store.users)
                case Some(users) => outcome == Navigate("login") && store.users == users
    {
      if newPassword != confirmPassword {
        return Stay;
      }
      var users := store.users;
      var userIndex := FindIndex(users, EmpIdIs(empId));
      if userIndex == -1 {
        return Threw;
      }
      users := users[userIndex := users[userIndex].(password := Some(newPassword))];
      store.users := users;
      outcome := Navigate("login");
    }

    /** `handleBack`: one step back, clearing what the left step typed;
        from step 1 back to the login page. */
    method HandleBack() returns (outcome: Outcome)
      requires Valid()
      modifies this
      ensures Valid()
      ensures outcome == if old(step) == 1 then Navigate("login") else Stay
      ensures step == if old(step) == 1 then 1 else old(step) - 1
      ensures securityAnswer == if old(step) == 2 then "" else old(securityAnswer)
      ensures newPassword == (if old(step) == 3 then "" else old(newPassword))
      ensures confirmPassword == (if old(step) == 3 then "" else old(confirmPassword))
      ensures empId == old(empId) && user == old(user)
    {
      if step == 1 {
        return Navigate("login");
      }
      step := step - 1;
      if step == 1 {
        securityAnswer := "";
      } else {
        newPassword := "";
        confirmPassword := "";
      }
      outcome := Stay;
    }
  }
}
