/** The add-account dialog (components/modals/add-account-modal.tsx): its
    guard, its loading flag, and what it does with addAccount's result. */
module AddAccountModal {
  import opened Types
  import opened Fetch
  import Text
  import AccountContext

  const UnknownErrorMessage: string := "An unknown error occurred."

  /** `result.error || 'An unknown error occurred.'`: the message shown for a
      failed addAccount. */
  function FailureMessage(r: AccountContext.AddResult): (m: string)
    ensures Text.Truthy(Some(m))
    ensures Text.Truthy(r.error) ==> m == r.error.value
    ensures !Text.Truthy(r.error) ==> m == UnknownErrorMessage
  {
    if Text.Truthy(r.error) then r.error.value else UnknownErrorMessage
  }

  class AddAccountDialog {
    var email: string
    var apiKey: string
    var error: Option<string>
    var isLoading: bool

    constructor ()
      ensures email == "" && apiKey == "" && error == None && !isLoading
    {
      email := "";
      apiKey := "";
      error := None;
      isLoading := false;
    }

    /** The two inputs. */
    method SetCredentials(email: string, apiKey: string)
      modifies this`email, this`apiKey
      ensures this.email == email && this.apiKey == apiKey
    {
      this.email := email;
      this.apiKey := apiKey;
    }

    /** handleSubmit up to the addAccount call: it goes ahead only when both
        inputs are non-empty, and then sets the loading flag and clears the error. */
    method BeginSubmit() returns (started: bool)
      modifies this`isLoading, this`error
      ensures started <==> email != "" && apiKey != ""
      ensures started ==> isLoading && error == None
      ensures !started ==> isLoading == old(isLoading) && error == old(error)
    {
      started := email != "" && apiKey != "";
      if started {
        isLoading := true;
        error := None;
      }
    }

    /** handleSubmit after addAccount returns: the loading flag drops; on success
        the dialog asks to close (`openChange` is the value passed to
        onOpenChange) and both inputs are cleared; on failure the message is
        shown and the inputs stay. */
    method FinishSubmit(r: AccountContext.AddResult) returns (openChange: Option<bool>)
      modifies this`isLoading, this`error, this`email, this`apiKey
      ensures !isLoading
      ensures r.success ==> openChange == Some(false) && email == "" && apiKey == "" && error == old(error)
      ensures !r.success ==>
                openChange.None? && error == Some(FailureMessage(r)) &&
                email == old(email) && apiKey == old(apiKey)
    {
      isLoading := false;
      if r.success {
        openChange := Some(false);
        email := "";
        apiKey := "";
      } else {
        openChange := None;
        error := Some(FailureMessage(r));
      }
    }

    /** The whole handler against the registry: with both inputs filled, the
        credentials are verified and stored; a stored account closes the dialog
        and clears it, a rejected one leaves the registry alone and shows why (or, for a
        transport error without a message, the unknown-error text). */
    method Submit(store: AccountContext.AccountStore, o: Outcome<seq<AccountContext.AccountSummary>>)
      returns (openChange: Option<bool>)
      modifies this`isLoading, this`error, this`email, this`apiKey, store
      ensures old(email == "" || apiKey == "") ==>
                openChange.None? && store.accounts == old(store.accounts) &&
                store.selectedAccountId == old(store.selectedAccountId) && error == old(error) &&
                isLoading == old(isLoading) && email == old(email) && apiKey == old(apiKey)
      ensures old(email != "" && apiKey != "") && AccountContext.Verify(o).Success? ==>
                openChange == Some(false) && email == "" && apiKey == "" && !isLoading && error == None &&
                store.accounts == old(store.accounts) +
                  [AccountContext.CloudflareAccount(AccountContext.Verify(o).value, old(email), old(apiKey))] &&
                store.selectedAccountId ==
                  AccountContext.SelectionAfterAdd(old(store.selectedAccountId), AccountContext.Verify(o).value)
      ensures old(email != "" && apiKey != "") && AccountContext.Verify(o).Failure? ==>
                openChange.None? && !isLoading &&
                error == Some(if AccountContext.Verify(o).error != "" then AccountContext.Verify(o).error
                              else UnknownErrorMessage) &&
                email == old(email) && apiKey == old(apiKey) &&
                store.accounts == old(store.accounts) && store.selectedAccountId == old(store.selectedAccountId)
      ensures old(store.Valid()) ==> store.Valid()
    {
      var started := BeginSubmit();
      if !started {
        return None;
      }
      var _, r := store.AddAccount(email, apiKey, o);
      openChange := FinishSubmit(r);
    }
  }
}
