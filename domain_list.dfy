/** The home page's zone list (components/domain-list.tsx): its fetch, the
    filter that drops a deleted zone, and what the list renders. */
module DomainList {
  import opened Types
  import opened Fetch
  import Text
  import Lists
  import AccountContext

  function ZoneId(z: Zone): string
  {
    z.id
  }

  /** The three things the list can render, in priority order. */
  datatype ListView = Skeleton | ErrorText(message: string) | Cards(zones: seq<Zone>)

  /** The render: the skeleton while loading; otherwise the error when it is
      truthy; otherwise one card per zone, in order. */
  function Render(loading: bool, error: Option<string>, zones: seq<Zone>): (v: ListView)
    ensures v.Skeleton? <==> loading
    ensures v.ErrorText? <==> !loading && Text.Truthy(error)
    ensures v.ErrorText? ==> Some(v.message) == error && v.message != ""
    ensures v.Cards? ==> !loading && !Text.Truthy(error) && v.zones == zones
  {
    if loading then Skeleton
    else if Text.Truthy(error) then ErrorText(error.value)
    else Cards(zones)
  }

  /** A failed envelope whose errors join to the empty text leaves an error
      cell that is falsy: the list then shows the zones it already had, as if
      the fetch had not failed. */
  lemma SilentFailureShowsStaleZones(zones: seq<Zone>, errors: seq<ApiMessage>)
    requires |errors| == 0 || (|errors| == 1 && errors[0].message == "")
    ensures Render(false, Some(JoinedErrors(errors)), zones) == Cards(zones)
  {
    JoinedErrorsEmpty(errors);
  }

  class DomainListState {
    var zones: seq<Zone>
    var loading: bool
    var error: Option<string>

    constructor ()
      ensures zones == [] && loading && error == None
    {
      zones := [];
      loading := true;
      error := None;
    }

    /** What the component renders from its three state cells. */
    function View(): ListView
      reads this
    {
      Render(loading, error, zones)
    }

    /** fetchZones up to the request: without a selected account nothing
        happens; otherwise loading starts and the error is cleared. */
    method BeginFetchZones(selected: Option<AccountContext.CloudflareAccount>) returns (req: Option<Request<()>>)
      modifies this`loading, this`error
      ensures selected.None? ==> req.None? && loading == old(loading) && error == old(error)
      ensures selected.Some? ==>
                loading && error == None &&
                req == Some(Request(GET, ZonesPath, selected.value.email, selected.value.apiKey, None))
    {
      if selected.None? {
        return None;
      }
      loading := true;
      error := None;
      req := Some(Request(GET, ZonesPath, selected.value.email, selected.value.apiKey, None));
    }

    /** fetchZones after the request: a non-ok status fails with
        "Error: <status> <statusText>", a failed envelope with its joined
        errors, a thrown error with its message; a successful envelope replaces
        the zones. Loading ends on every path. */
    method FinishFetchZones(o: Outcome<seq<Zone>>)
      modifies this`loading, this`error, this`zones
      ensures !loading
      ensures match SettleChecked(o, StatusLineError)
              case Success(result) => zones == result && error == old(error)
              case Failure(message) => zones == old(zones) && error == Some(message)
    {
      match SettleChecked(o, StatusLineError) {
        case Success(result) =>
          zones := result;
        case Failure(message) =>
          error := Some(message);
      }
      loading := false;
    }

    /** handleDomainDeleted: every zone with the id is dropped, the others keep
        their order. */
    method HandleDomainDeleted(deletedZoneId: string)
      modifies this`zones
      ensures zones == Lists.RemoveById(old(zones), ZoneId, deletedZoneId)
      ensures forall i :: 0 <= i < |zones| ==> zones[i].id != deletedZoneId
    {
      zones := Lists.RemoveById(zones, ZoneId, deletedZoneId);
    }
  }

  /** A fetch answered with a non-ok status shows "Error: <status> <statusText>"
      and keeps the zones of the previous fetch in the state. */
  method NotOkFetchScenario(account: AccountContext.CloudflareAccount, previous: seq<Zone>, body: Envelope<seq<Zone>>)
    returns (list: DomainListState)
    ensures list.zones == previous
    ensures list.View() == ErrorText("Error: 403 Forbidden")
  {
    list := new DomainListState();
    var _ := list.BeginFetchZones(Some(account));
    list.FinishFetchZones(Resolved(Response(200, "OK", Envelope(true, previous, []))));
    var _ := list.BeginFetchZones(Some(account));
    list.FinishFetchZones(Resolved(Response(403, "Forbidden", body)));
    assert Text.IntToString(403) == "403" by {
      assert Text.NatToString(403) == Text.NatToString(40) + [Text.DigitChar(3)];
      assert Text.NatToString(40) == Text.NatToString(4) + [Text.DigitChar(0)];
    }
  }
}
