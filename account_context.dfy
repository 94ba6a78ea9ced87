/** The account registry (context/account-context.tsx): an ordered list of
    stored credentials and a selection cursor naming the active one. Both cells
    are persisted by the source; here they are plain fields. */
module AccountContext {
  import opened Types
  import opened Fetch
  import Text
  import Lists

  /** A stored credential: the upstream account id with the e-mail and key. */
  datatype CloudflareAccount = CloudflareAccount(id: string, email: string, apiKey: string)

  /** An entry of the accounts listing the verification call returns; only its
      id is read. */
  datatype AccountSummary = AccountSummary(id: string, name: string)

  /** `{ success, error? }`, what addAccount resolves to. */
  datatype AddResult = AddResult(success: bool, error: Option<string>)

  const FetchFailedMessage: string := "Failed to fetch Cloudflare account details."
  const NoAccountsMessage: string := "No accounts found for these credentials."

  function AccountId(a: CloudflareAccount): string
  {
    a.id
  }

  /** The decision addAccount takes on the outcome of the verification call:
      the id of the first listed account, or the message it fails with. */
  function Verify(o: Outcome<seq<AccountSummary>>): (r: Result<string, string>)
    ensures r.Success? <==>
              o.Resolved? && Ok(o.response.status) && o.response.body.success && |o.response.body.result| > 0
    ensures r.Success? ==> r.value == o.response.body.result[0].id
    ensures o.Threw? ==> r == Failure(o.message)
    ensures o.Resolved? && !Ok(o.response.status) ==> r == Failure(FetchFailedMessage)
    ensures o.Resolved? && Ok(o.response.status) && r.Failure? ==>
              Text.Truthy(Some(r.error)) &&
              (r.error == JoinedErrors(o.response.body.errors) || r.error == NoAccountsMessage)
  {
    match o
    case Threw(m) => Failure(m)
    case Resolved(res) =>
      if !Ok(res.status) then Failure(FetchFailedMessage)
      else if res.body.success && |res.body.result| > 0 then Success(res.body.result[0].id)
      else
        var joined := JoinedErrors(res.body.errors);
        Failure(if joined != "" then joined else NoAccountsMessage)
  }

  /** On an ok response without a usable listing, the failure carries the joined
      errors, or the "no accounts" text exactly when there is no error entry or a
      single one with an empty message. */
  lemma VerifyFallback(res: Response<seq<AccountSummary>>)
    requires Ok(res.status) && !(res.body.success && |res.body.result| > 0)
    ensures var errors := res.body.errors;
            Verify(Resolved(res)) ==
              if |errors| == 0 || (|errors| == 1 && errors[0].message == "") then Failure(NoAccountsMessage)
              else Failure(JoinedErrors(errors))
  {
    JoinedErrorsEmpty(res.body.errors);
  }

  /** The selection invariant: nothing is selected, or the selected id is that
      of a stored account. */
  predicate SelectionValid(accounts: seq<CloudflareAccount>, selected: Option<string>)
  {
    selected.None? || exists i :: 0 <= i < |accounts| && accounts[i].id == selected.value
  }

  /** `if (!selectedAccountId) setSelectedAccountId(newId)`: an unset (null or
      empty) selection moves to the new id, any other stays. */
  function SelectionAfterAdd(selected: Option<string>, newId: string): (r: Option<string>)
    ensures r.Some?
    ensures Text.Truthy(selected) ==> r == selected
    ensures !Text.Truthy(selected) ==> r == Some(newId)
  {
    if Text.Truthy(selected) then selected else Some(newId)
  }

  /** The selection after removeAccount(id), given the accounts that remain. */
  function SelectionAfterRemove(remaining: seq<CloudflareAccount>, selected: Option<string>, id: string): (r: Option<string>)
    ensures selected != Some(id) ==> r == selected
    ensures selected == Some(id) && |remaining| > 0 ==> r == Some(remaining[0].id)
    ensures selected == Some(id) && |remaining| == 0 ==> r.None?
  {
    if selected == Some(id) then (if |remaining| > 0 then Some(remaining[0].id) else None)
    else selected
  }

  /** `accounts.find(acc => acc.id === selectedAccountId) || null`: the first
      stored account carrying the selected id, or none. */
  function SelectedAccountOf(accounts: seq<CloudflareAccount>, selected: Option<string>): (r: Option<CloudflareAccount>)
    ensures r.Some? ==> r.value in accounts && selected == Some(r.value.id)
    ensures r.None? <==> selected.None? || forall i :: 0 <= i < |accounts| ==> accounts[i].id != selected.value
    ensures r.Some? ==> exists i :: 0 <= i < |accounts| && accounts[i] == r.value &&
                                    forall j :: 0 <= j < i ==> accounts[j].id != selected.value
  {
    if selected.None? then None else Lists.FirstById(accounts, AccountId, selected.value)
  }

  /** The invariant holds exactly when the selection, if any, resolves to a
      stored account: under it, a selected id always yields a selected account. */
  lemma SelectionValidResolves(accounts: seq<CloudflareAccount>, selected: Option<string>)
    ensures SelectionValid(accounts, selected) <==> selected.None? || SelectedAccountOf(accounts, selected).Some?
  {
    if selected.Some? && SelectedAccountOf(accounts, selected).Some? {
      var a := SelectedAccountOf(accounts, selected).value;
      var i :| 0 <= i < |accounts| && accounts[i] == a;
      assert accounts[i].id == selected.value;
    }
  }

  /** Appending a verified account and adjusting the selection keeps the
      invariant. A real selection keeps resolving to the same account; with
      nothing (or "") selected and an id not stored before, the new account
      becomes the selected one. */
  lemma AddKeepsSelectionValid(accounts: seq<CloudflareAccount>, selected: Option<string>, added: CloudflareAccount)
    requires SelectionValid(accounts, selected)
    ensures SelectionValid(accounts + [added], SelectionAfterAdd(selected, added.id))
    ensures Text.Truthy(selected) ==>
              SelectedAccountOf(accounts + [added], SelectionAfterAdd(selected, added.id)) ==
              SelectedAccountOf(accounts, selected)
    ensures !Text.Truthy(selected) && (forall i :: 0 <= i < |accounts| ==> accounts[i].id != added.id) ==>
              SelectedAccountOf(accounts + [added], SelectionAfterAdd(selected, added.id)) == Some(added)
  {
    var s := accounts + [added];
    if Text.Truthy(selected) {
      var i :| 0 <= i < |accounts| && accounts[i].id == selected.value;
      assert s[i] == accounts[i];
      Lists.FirstByIdAppend(accounts, [added], AccountId, selected.value);
      assert Lists.FirstById(accounts, AccountId, selected.value).Some? by {
        assert AccountId(accounts[i]) == selected.value;
      }
    } else {
      assert s[|accounts|] == added;
      Lists.FirstByIdAppend(accounts, [added], AccountId, added.id);
      assert Lists.FirstById([added], AccountId, added.id) == Some(added);
    }
  }

  /** Removing accounts keeps the invariant. */
  lemma RemoveKeepsSelectionValid(accounts: seq<CloudflareAccount>, selected: Option<string>, id: string)
    requires SelectionValid(accounts, selected)
    ensures var remaining := Lists.RemoveById(accounts, AccountId, id);
            SelectionValid(remaining, SelectionAfterRemove(remaining, selected, id))
  {
    var remaining := Lists.RemoveById(accounts, AccountId, id);
    if selected.Some? && selected != Some(id) {
      var i :| 0 <= i < |accounts| && accounts[i].id == selected.value;
      assert AccountId(accounts[i]) != id;
      var j :| 0 <= j < |remaining| && remaining[j] == accounts[i];
    }
  }

  /** Removing the selected account moves the selection to the first remaining
      account, which never carries the removed id, or clears it when none remain;
      removing another id leaves the selection alone. */
  lemma RemoveSelectedNeverDangles(accounts: seq<CloudflareAccount>, selected: Option<string>, id: string)
    ensures var remaining := Lists.RemoveById(accounts, AccountId, id);
            var next := SelectionAfterRemove(remaining, selected, id);
            && (selected == Some(id) && |remaining| > 0 ==>
                  next == Some(remaining[0].id) && next != Some(id) && SelectedAccountOf(remaining, next) == Some(remaining[0]))
            && (selected == Some(id) && |remaining| == 0 ==> next.None?)
            && (selected != Some(id) ==> next == selected)
  {
    var remaining := Lists.RemoveById(accounts, AccountId, id);
    if selected == Some(id) && |remaining| > 0 {
      assert AccountId(remaining[0]) != id;
    }
  }

  /** The registry itself: the two stored cells and the operations that update them. */
  class AccountStore {
    var accounts: seq<CloudflareAccount>
    var selectedAccountId: Option<string>

    ghost predicate Valid()
      reads this
    {
      SelectionValid(accounts, selectedAccountId)
    }

    /** The initial (never persisted) state: no account, nothing selected. */
    constructor ()
      ensures accounts == [] && selectedAccountId == None
      ensures Valid()
    {
      accounts := [];
      selectedAccountId := None;
    }

    /** The derived `selectedAccount`: a stored account carrying the selected
        id; under the invariant, present whenever an id is selected. */
    function SelectedAccount(): (r: Option<CloudflareAccount>)
      reads this
      ensures r == SelectedAccountOf(accounts, selectedAccountId)
      ensures r.Some? ==> r.value in accounts && selectedAccountId == Some(r.value.id)
      ensures Valid() && selectedAccountId.Some? ==> r.Some?
    {
      SelectionValidResolves(accounts, selectedAccountId);
      SelectedAccountOf(accounts, selectedAccountId)
    }

    /** addAccount: issues the verification call with the given credentials and,
        on the outcome `o`, appends the new account (no duplicate check) and
        selects it if nothing was selected; on failure nothing changes. */
    method AddAccount(email: string, apiKey: string, o: Outcome<seq<AccountSummary>>) returns (req: Request<()>, r: AddResult)
      modifies this
      ensures req == Request(GET, AccountsPath, email, apiKey, None)
      ensures Verify(o).Success? ==>
                && r == AddResult(true, None)
                && accounts == old(accounts) + [CloudflareAccount(Verify(o).value, email, apiKey)]
                && selectedAccountId == SelectionAfterAdd(old(selectedAccountId), Verify(o).value)
      ensures Verify(o).Failure? ==>
                && r == AddResult(false, Some(Verify(o).error))
                && accounts == old(accounts) && selectedAccountId == old(selectedAccountId)
      ensures old(Valid()) ==> Valid()
    {
      req := Request(GET, AccountsPath, email, apiKey, None);
      match Verify(o) {
        case Success(id) =>
          var newAccount := CloudflareAccount(id, email, apiKey);
          if Valid() {
            AddKeepsSelectionValid(accounts, selectedAccountId, newAccount);
          }
          accounts := accounts + [newAccount];
          if !Text.Truthy(selectedAccountId) {
            selectedAccountId := Some(newAccount.id);
          }
          r := AddResult(true, None);
        case Failure(message) =>
          r := AddResult(false, Some(message));
      }
    }

    /** removeAccount: drops every account with this id, keeping the others in
        order, and moves a selection that named it. */
    method RemoveAccount(id: string)
      modifies this
      ensures accounts == Lists.RemoveById(old(accounts), AccountId, id)
      ensures selectedAccountId == SelectionAfterRemove(accounts, old(selectedAccountId), id)
      ensures old(Valid()) ==> Valid()
    {
      if Valid() {
        RemoveKeepsSelectionValid(accounts, selectedAccountId, id);
      }
      var updatedAccounts := Lists.RemoveById(accounts, AccountId, id);
      accounts := updatedAccounts;
      if selectedAccountId == Some(id) {
        selectedAccountId := if |updatedAccounts| > 0 then Some(updatedAccounts[0].id) else None;
      }
    }

    /** selectAccount: stores any id (or none), without checking that it names
        a stored account. */
    method SelectAccount(id: Option<string>)
      modifies this
      ensures selectedAccountId == id && accounts == old(accounts)
    {
      selectedAccountId := id;
    }
  }

  /** The first-account scenario: verifying `a@b.com` / `K` against a listing whose
      first account is `acct1` stores `{acct1, a@b.com, K}` and selects it. */
  method FirstAccountScenario() returns (store: AccountStore)
    ensures store.accounts == [CloudflareAccount("acct1", "a@b.com", "K")]
    ensures store.SelectedAccount() == Some(CloudflareAccount("acct1", "a@b.com", "K"))
  {
    store := new AccountStore();
    var listing := Envelope(true, [AccountSummary("acct1", "a@b.com")], []);
    var _, r := store.AddAccount("a@b.com", "K", Resolved(Response(200, "OK", listing)));
    assert r.success;
  }
}
