/** The add-domain dialog (components/modals/add-domain-modal.tsx): the zone
    creation request, its outcome, the reset on close, and the switch between
    the form and the success view. */
module AddDomainModal {
  import opened Types
  import opened Fetch
  import AccountContext

  /** `{ name, account: { id }, jump_start: true }`. */
  datatype CreateZoneBody = CreateZoneBody(name: string, accountId: string, jumpStart: bool)

  /** The two faces of the dialog: the form, or the success view carrying the
      zone whose name-server instructions it shows. */
  datatype DialogView = FormView | SuccessView(zone: Zone)

  const FormTitle: string := "Add New Domain"
  const SuccessTitle: string := "Domain Added Successfully"

  function Title(v: DialogView): (t: string)
    ensures t == SuccessTitle <==> v.SuccessView?
    ensures t == FormTitle <==> v.FormView?
  {
    if v.SuccessView? then SuccessTitle else FormTitle
  }

  /** The footer's single button: "Done" closes, "Add Domain" submits. */
  function FooterButton(v: DialogView): (b: string)
    ensures b == "Done" <==> v.SuccessView?
    ensures b == "Add Domain" <==> v.FormView?
  {
    if v.SuccessView? then "Done" else "Add Domain"
  }

  class AddDomainDialog {
    var domainName: string
    var error: Option<string>
    var newlyAddedZone: Option<Zone>

    constructor ()
      ensures domainName == "" && error == None && newlyAddedZone == None
    {
      domainName := "";
      error := None;
      newlyAddedZone := None;
    }

    /** The success view is shown exactly when a zone was added. */
    function View(): (v: DialogView)
      reads this
      ensures v.SuccessView? <==> newlyAddedZone.Some?
      ensures v.SuccessView? ==> newlyAddedZone == Some(v.zone)
    {
      if newlyAddedZone.Some? then SuccessView(newlyAddedZone.value) else FormView
    }

    /** The domain-name input. */
    method SetDomainName(name: string)
      modifies this`domainName
      ensures domainName == name
    {
      domainName := name;
    }

    /** handleSubmit: without a selected account nothing happens. Otherwise the
        error is cleared and the zone is POSTed for the selected account with
        jump start on; the envelope is read whatever the status. A created zone
        is returned in `added` (onDomainAdded) and switches the dialog to the
        success view; a failure is shown. */
    method HandleSubmit(selected: Option<AccountContext.CloudflareAccount>, o: Outcome<Zone>)
      returns (req: Option<Request<CreateZoneBody>>, added: Option<Zone>)
      modifies this`error, this`newlyAddedZone
      ensures selected.None? ==>
                req.None? && added.None? && error == old(error) && newlyAddedZone == old(newlyAddedZone)
      ensures selected.Some? ==>
                req == Some(Request(POST, ZonesPath, selected.value.email, selected.value.apiKey,
                                    Some(CreateZoneBody(domainName, selected.value.id, true))))
      ensures selected.Some? ==>
                match Settle(o)
                case Success(z) => added == Some(z) && newlyAddedZone == Some(z) && error == None
                case Failure(message) =>
                  added.None? && newlyAddedZone == old(newlyAddedZone) && error == Some(message)
    {
      if selected.None? {
        return None, None;
      }
      error := None;
      var account := selected.value;
      req := Some(Request(POST, ZonesPath, account.email, account.apiKey,
                          Some(CreateZoneBody(domainName, account.id, true))));
      match Settle(o) {
        case Success(z) =>
          added := Some(z);
          newlyAddedZone := Some(z);
        case Failure(message) =>
          added := None;
          error := Some(message);
      }
    }

    /** handleClose: asks the parent to close (`openChange` is the value passed
        to onOpenChange) and resets the three cells to their initial values. */
    method HandleClose() returns (openChange: bool)
      modifies this`domainName, this`error, this`newlyAddedZone
      ensures !openChange
      ensures domainName == "" && error == None && newlyAddedZone == None
      ensures View() == FormView
    {
      openChange := false;
      domainName := "";
      error := None;
      newlyAddedZone := None;
    }
  }

  /** Adding a domain shows the success view for the created zone; closing the
      dialog brings back an empty form. */
  method AddThenCloseScenario(account: AccountContext.CloudflareAccount, z: Zone) returns (dialog: AddDomainDialog)
    ensures dialog.View() == FormView && dialog.domainName == "" && dialog.error == None
  {
    dialog := new AddDomainDialog();
    dialog.SetDomainName(z.name);
    var req, added := dialog.HandleSubmit(Some(account), Resolved(Response(200, "OK", Envelope(true, z, []))));
    assert added == Some(z);
    assert req.value.body == Some(CreateZoneBody(z.name, account.id, true));
    assert dialog.View() == SuccessView(z) && Title(dialog.View()) == SuccessTitle;
    var _ := dialog.HandleClose();
  }
}
