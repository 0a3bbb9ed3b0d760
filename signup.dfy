/** The self-service sign-up page, which stores the new account in browser
    storage and returns to login. */
module SignupView {
  import opened Common
  import opened Records
  import opened Browser

  class SignupPage {
    const store: Storage
    var formData: UserForm

    constructor (store: Storage)
      ensures this.store == store && formData == DefaultForm
    {
      this.store := store;
      formData := DefaultForm;
    }

    /** `handleChange`; the page has no balance inputs, so the balances keep
        their defaults of 12 and 0. */
    method HandleChange(field: string, value: string)
      requires field != "clBalance" && field != "coBalance"
      modifies this
      ensures formData == WithField(old(formData), field, value)
      ensures formData.clBalance == old(formData.clBalance) && formData.coBalance == old(formData.coBalance)
    {
      formData := WithField(formData, field, value);
    }

    /** `handleSubmit`: the same checks as the administrator's form; only a
        stored account leads back to login. */
    method HandleSubmit() returns (outcome: Outcome)
      modifies store
      ensures store.leaveRequests == old(store.leaveRequests) && store.currentUser == old(store.currentUser)
      ensures match SubmitForm(old(store.users), formData)
              case Added(users) => store.users == users && outcome == Navigate("login")
              case _ => store.users == old(store.users) && outcome == Stay
    {
      if formData.password != formData.confirmPassword {
        return Stay;
      }
      var users := store.users;
      var existing := FindIndex(users, EmpIdIs(formData.empId));
      if existing != -1 {
        return Stay;
      }
      users := users + [FormUser(formData)];
      store.users := users;
      outcome := Navigate("login");
    }
  }
}
