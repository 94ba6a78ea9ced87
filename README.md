# Cloudflare Domain Manager — client-side core in Dafny

This project models the browser side of a dashboard for managing Cloudflare
zones and DNS records. It covers:

- the account registry, which verifies credentials and keeps a list of stored
  accounts and the selected one;
- the request bodies the add-record, edit-record and add-domain dialogs send;
- the local copies of record and zone lists that handlers rewrite by id;
- the state machines that turn each request's outcome into loading flags,
  error texts and the blocks a view shows.

Each request is an input `Outcome`. It is either a thrown transport error
carrying its message, or a resolved response with a status, a status text and
the Cloudflare envelope `{success, result, errors}`. Handlers that never look
at the HTTP status read the envelope with `Fetch.Settle`. Handlers that throw
on a non-ok status use `Fetch.SettleChecked`, which takes the text they throw.

An asynchronous handler that keeps an in-flight flag is split at its `await`.
The part before the request is a `Begin…` method that returns the request it
issues. The continuation is a `Finish…` method that takes the outcome. Calls
into the parent component are returned values or recorded flags:
`onDnsRecordAdded`, `onOpenChange(false)` and `router.push('/')`.

JavaScript truthiness of a `string | null` cell is `Text.Truthy`, under which
`""` is falsy. It matters in several places:

- a failed envelope whose messages join to `""` leaves an error cell that no
  view shows;
- an empty selection counts as "nothing selected" when an account is added.

Modules: `Types` (entities), `Text` (join, split, decimal rendering,
truthiness), `Lists` (id-keyed filter/map/find), `Fetch` (requests, outcomes,
error texts), then one module per component.

## Model

| member | source | states |
|---|---|---|
| Lists.RemoveById | components/dns-record-management.tsx:67 | the result holds only entries whose id differs from the key, and every such entry of the input survives |
| Lists.RemoveByIdAppend | context/account-context.tsx:59 | filtering distributes over concatenation, so survivors keep their relative order |
| Lists.RemoveByIdAbsent | components/domain-list.tsx:50 | a list with no entry carrying the id is returned unchanged |
| Lists.RemoveByIdIdempotent | components/domain-list.tsx:50 | deleting the same id twice leaves what deleting it once leaves |
| Lists.ReplaceById | components/dns-record-management.tsx:66 | same length; each position holds the new entry exactly when its id matches, and otherwise the old entry |
| Lists.ReplaceByIdKeepsIds | components/dns-record-management.tsx:66 | replacing by id never changes the sequence of ids |
| Lists.ReplaceByIdIdempotent | components/dns-record-management.tsx:66 | replacing twice with the same entry equals replacing once |
| Lists.FirstById | context/account-context.tsx:70 | none exactly when no entry carries the key; otherwise an entry carrying the key with no earlier one carrying it |
| Text.Truthy | context/account-context.tsx:46 | JavaScript truthiness of a nullable string cell: present and non-empty; every view and guard that tests such a cell uses it |
| Text.Join | components/domain-list.tsx:36 | `Array.prototype.join`: the parts in order with the separator between neighbours; its laws are `Text.SplitJoin` and `Text.JoinSnoc` |
| Text.SplitJoin | components/modals/add-dns-record-modal.tsx:51 | splitting a single-character join gives back the parts (empty parts included) when no part holds the separator |
| Text.JoinSnoc | components/modals/add-dns-record-modal.tsx:51 | joining one more part appends the separator and the part |
| Text.NatToString | components/modals/add-dns-record-modal.tsx:51 | the rendering of a natural number is a non-empty digit string |
| Text.DigitsValueOfNatToString | components/modals/add-dns-record-modal.tsx:51 | the decimal rendering of a number reads back as that number |
| Text.IntToString | components/dns-record-management.tsx:46 | an integer renders as a non-empty text without spaces |
| Fetch.Ok | components/domain-list.tsx:27 | `res.ok`: a status from 200 to 299 |
| Fetch.Messages | components/domain-list.tsx:36 | one message per error entry, in order |
| Fetch.JoinedErrorsEmpty | components/domain-list.tsx:36 | the joined error text is empty exactly when there is no error entry, or a single one with an empty message |
| Fetch.JoinedErrorsSingle | components/domain-list.tsx:36 | a single error's text is its message |
| Fetch.JoinedErrors | components/domain-list.tsx:36 | no error entry joins to `""`; otherwise the text begins with the first entry's message |
| Fetch.Settle | components/modals/add-dns-record-modal.tsx:81-91 | success exactly when the request resolved with a successful envelope, whatever the status, and then it carries the envelope's result; a failed envelope fails with its joined errors; a thrown error fails with its message |
| Fetch.SettleChecked | components/dns-record-management.tsx:46-54 | success exactly when the request resolved with an ok status and a successful envelope |
| Fetch.SettleIgnoresStatus | components/modals/add-domain-modal.tsx:50-57 | for the unchecked reading, two responses differing only in status settle alike |
| Fetch.SettleCheckedAgrees | components/domain-sidebar.tsx:31-39 | a non-ok response fails with the status text without its body being read; on every other outcome the checked reading equals the unchecked one |
| Fetch.StatusError | components/domain-sidebar.tsx:31 | `Error: <status>` is never a falsy error |
| Fetch.StatusLineError | components/domain-list.tsx:27-29 | `Error: <status> <statusText>` is never a falsy error |
| AccountContext.Verify | context/account-context.tsx:26-56 | verification succeeds exactly on an ok, successful, non-empty listing, yielding the first account's id. A thrown error fails with its message, a non-ok status with the fixed fetch-failed text, and any other failure with a truthy text: the joined errors or the no-accounts text |
| AccountContext.VerifyFallback | context/account-context.tsx:50-51 | the no-accounts text is used exactly when the errors join to the empty text |
| AccountContext.SelectionAfterAdd | context/account-context.tsx:46-48 | after an add some id is always selected; a truthy selection is never overridden, and a null or empty one is replaced by the new id |
| AccountContext.SelectionAfterRemove | context/account-context.tsx:61-63 | a selection other than the removed id stays; removing the selected id moves the selection to the first remaining account, or clears it when none remain |
| AccountContext.SelectedAccountOf | context/account-context.tsx:70 | the selected account is the first stored account carrying the selected id; there is none exactly when nothing is selected or no stored account carries that id |
| AccountContext.SelectionValidResolves | context/account-context.tsx:70 | the selection invariant holds exactly when a selected id always resolves to a stored account |
| AccountContext.AddKeepsSelectionValid | context/account-context.tsx:41-48 | appending the verified account keeps the invariant; a truthy selection still resolves to the same account, and a null or empty one resolves to the new account when its id was not stored before |
| AccountContext.RemoveKeepsSelectionValid | context/account-context.tsx:58-64 | removal keeps the selection invariant |
| AccountContext.RemoveSelectedNeverDangles | context/account-context.tsx:61-63 | removing the selected id moves the selection to the first remaining account, which never has that id, or to null; removing another id leaves it alone |
| AccountContext.AccountStore.constructor | context/account-context.tsx:23-24 | the registry starts with no account and no selection, which satisfies the invariant |
| AccountContext.AccountStore.SelectedAccount | context/account-context.tsx:70 | the derived account is the first stored account carrying the selected id; it is stored and carries that id, and under the invariant a selected id always yields one |
| AccountContext.AccountStore.AddAccount | context/account-context.tsx:26-56 | it requests the accounts listing with the given credentials. On success it appends `{id, email, apiKey}` without a duplicate check and adjusts the selection; on failure nothing changes. The selection invariant is preserved |
| AccountContext.AccountStore.RemoveAccount | context/account-context.tsx:58-64 | it drops every account with the id, keeping the others in order, moves a selection naming it, and preserves the invariant |
| AccountContext.AccountStore.SelectAccount | context/account-context.tsx:66-68 | it stores any id, or none, unchecked, and leaves the accounts alone |
| AccountContext.FirstAccountScenario | context/account-context.tsx:41-48 | verifying the first credentials stores that account and selects it |
| AddDnsRecordModal.RecordTypeOptionsComplete | components/modals/add-dns-record-modal.tsx:19-22 | every record type is offered, each once |
| AddDnsRecordModal.NumToString | components/modals/add-dns-record-modal.tsx:51 | a number (or NaN) renders as a non-empty text without spaces |
| AddDnsRecordModal.ReadNumToString | components/modals/add-dns-record-modal.tsx:133-135 | every rendered number, NaN included, reads back as itself |
| AddDnsRecordModal.SrvFields | components/modals/add-dns-record-modal.tsx:51 | the seven SRV fields in template order: service, proto, name, priority, weight, port, target |
| AddDnsRecordModal.SrvContent | components/modals/add-dns-record-modal.tsx:51 | the SRV fields joined by single spaces; `AddDnsRecordModal.SrvContentRoundTrip` reads it back |
| AddDnsRecordModal.SrvContentRoundTrip | components/modals/add-dns-record-modal.tsx:49-67 | SRV content splits back on single spaces into exactly the seven fields of the `data` object, when the text fields hold no space |
| AddDnsRecordModal.SpaceInTargetBreaksRoundTrip | components/modals/add-dns-record-modal.tsx:51 | a space inside the target makes the content split into eight pieces, so it no longer reads back |
| AddDnsRecordModal.WithSrvField | components/modals/add-dns-record-modal.tsx:94-96 | the named field takes the value and the other six keep theirs |
| AddDnsRecordModal.SrvFieldsDetermine | components/modals/add-dns-record-modal.tsx:94-96 | two SRV objects agreeing on all seven fields are equal |
| AddDnsRecordModal.WithSrvFieldLaws | components/modals/add-dns-record-modal.tsx:94-96 | writing a field's own value is a no-op, and writes to different fields commute |
| AddDnsRecordModal.AddRecordBody | components/modals/add-dns-record-modal.tsx:54-68 | the body always carries type, name, proxied and `ttl = 1`; `priority` is present exactly for MX and `data` exactly for SRV |
| AddDnsRecordModal.AddRecordBodyFields | components/modals/add-dns-record-modal.tsx:49-68 | SRV sends its `data` object and the seven fields joined by spaces, and when no field holds a space that content reads back as the `data`; other types send the typed content; MX sends the priority |
| AddDnsRecordModal.ProxyEditable | components/modals/add-dns-record-modal.tsx:146 | the proxy switch is enabled exactly for A, AAAA and CNAME |
| AddDnsRecordModal.ProxiedSentForEveryType | components/modals/add-dns-record-modal.tsx:146 | a fresh dialog (proxied on) switched to a type whose proxy switch is disabled still posts that type with `proxied: true` |
| AddDnsRecordModal.AddDnsRecordDialog.constructor | components/modals/add-dns-record-modal.tsx:33-39 | the initial cells are A, empty name and content, proxied, priority 10, SRV defaults `_tcp` and 1/1/1, and no error |
| AddDnsRecordModal.AddDnsRecordDialog.SyncZoneName | components/modals/add-dns-record-modal.tsx:41-43 | the name cell takes the zone's name |
| AddDnsRecordModal.AddDnsRecordDialog.HandleSrvChange | components/modals/add-dns-record-modal.tsx:94-96 | exactly one SRV field changes |
| AddDnsRecordModal.AddDnsRecordDialog.HandleSubmit | components/modals/add-dns-record-modal.tsx:45-92 | with no account it does nothing. Otherwise it POSTs the built body to the zone's records and clears the error. A successful envelope returns the record, whatever the status; a failure sets the joined errors or the thrown message |
| EditDnsRecordModal.EditRecordBody | components/modals/edit-dns-record-modal.tsx:57 | the PUT body is the five base fields with `ttl = 1`, and never a priority or data |
| EditDnsRecordModal.EditDropsTypeSpecificFields | components/modals/edit-dns-record-modal.tsx:57 | saving an MX or SRV record unchanged PUTs its type, name and content but neither a priority nor SRV data, whatever the record carries, while the add dialog sends one of them for these types |
| EditDnsRecordModal.EditDnsRecordDialog.constructor | components/modals/edit-dns-record-modal.tsx:29-33 | the cells start from the record, with no error |
| EditDnsRecordModal.EditDnsRecordDialog.SyncWithRecord | components/modals/edit-dns-record-modal.tsx:35-43 | on open the four cells are reset from the record and the error is cleared; while closed nothing changes |
| EditDnsRecordModal.EditDnsRecordDialog.ChooseType | components/modals/edit-dns-record-modal.tsx:83-94 | only the seven offered types can be chosen |
| EditDnsRecordModal.EditDnsRecordDialog.HandleSubmit | components/modals/edit-dns-record-modal.tsx:45-71 | with no account it does nothing. Otherwise it PUTs the fixed body to the record's path; the updated record is returned, or a failure is shown |
| DnsRecordRow.DnsRecordRowState.constructor | components/dns-record-row.tsx:23-24 | the edit dialog starts closed and the row is not deleting |
| DnsRecordRow.DnsRecordRowState.BeginDelete | components/dns-record-row.tsx:28-38 | with no account it does nothing; otherwise the row is marked deleting and the record's DELETE is issued |
| DnsRecordRow.DnsRecordRowState.FinishDelete | components/dns-record-row.tsx:39-44 | any response reports the record's id as deleted, whatever the status; a thrown error reports nothing; the flag ends false |
| DnsRecordManagement.DnsRecordPanel.constructor | components/dns-record-management.tsx:17-24 | the panel starts with no records, loading, no error, both flags false, no zone and no navigation |
| DnsRecordManagement.DnsRecordPanel.FetchZoneDetails | components/dns-record-management.tsx:27-36 | a successful envelope, whatever the status, sets the zone; anything else, a thrown error included, changes nothing |
| DnsRecordManagement.DnsRecordPanel.BeginFetchDnsRecords | components/dns-record-management.tsx:38-45 | with no account it does nothing; otherwise it starts loading, clears the error and requests the zone's records |
| DnsRecordManagement.DnsRecordPanel.FinishFetchDnsRecords | components/dns-record-management.tsx:46-57 | loading always ends. Success replaces the records; a non-ok status (`Error: <status>`), a failed envelope or a thrown error sets the error and keeps the records |
| DnsRecordManagement.DnsRecordPanel.HandleDnsRecordAdded | components/dns-record-management.tsx:65 | the record is appended at the end |
| DnsRecordManagement.DnsRecordPanel.HandleDnsRecordUpdated | components/dns-record-management.tsx:66 | every record with the id is replaced; length, order and other records are kept |
| DnsRecordManagement.DnsRecordPanel.HandleDnsRecordDeleted | components/dns-record-management.tsx:67 | every record with the id is removed and the rest keep their order |
| DnsRecordManagement.DnsRecordPanel.BeginDeleteDomain | components/dns-record-management.tsx:69-77 | with no account it does nothing; otherwise it sets the deleting flag, clears the error and issues the zone's DELETE |
| DnsRecordManagement.DnsRecordPanel.FinishDeleteDomain | components/dns-record-management.tsx:78-83 | any response navigates home, whatever its status; only a thrown error sets the error; the flag ends false |
| DnsRecordManagement.DnsRecordPanel.SubmitAddRecord | components/dns-record-management.tsx:147-152 | a created record is appended and the add dialog closes; otherwise the list and the open flag stay. The dialog's error is cleared on success, set to the failure's text on failure, and untouched without an account |
| DnsRecordManagement.DnsRecordPanel.FinishRowDelete | components/dns-record-management.tsx:134 | a resolved row delete removes that record from the list; a thrown one leaves the list |
| DnsRecordManagement.DnsRecordPanel.SubmitEditRecord | components/dns-record-management.tsx:135 | an updated record replaces its namesakes and the row's edit dialog closes; otherwise the list and the open flag stay. The dialog's error is cleared on success, set to the failure's text on failure, and untouched without an account |
| DnsRecordManagement.DnsRecordPanel.ShowsZoneLoading | components/dns-record-management.tsx:86 | before the zone arrives only the zone-loading text shows; no other block does |
| DnsRecordManagement.DnsRecordPanel.ShowsSkeleton | components/dns-record-management.tsx:109-125 | the skeleton shows only with a zone, and never beside the rows or the empty-list message |
| DnsRecordManagement.DnsRecordPanel.ShowsError | components/dns-record-management.tsx:126 | the error line shows only for a non-empty error, and never beside the rows or the empty-list message |
| DnsRecordManagement.DnsRecordPanel.ShowsRows | components/dns-record-management.tsx:127-137 | the rows show only for a non-empty list, and never beside the empty-list message |
| DnsRecordManagement.DnsRecordPanel.ShowsEmptyMessage | components/dns-record-management.tsx:138-144 | "No DNS records found." shows only with a zone, not loading and an empty list |
| DnsRecordManagement.PanelDisplayRule | components/dns-record-management.tsx:86-144 | before the zone only its loading text; while loading the skeleton, with the error beside it exactly when the error is truthy; once loaded exactly one of the error, the rows and the empty-list message |
| DnsRecordManagement.DeleteLastRecordThenRefetch | components/dns-record-management.tsx:127-144 | deleting the last record and refetching leaves an empty list showing "No DNS records found." and neither rows nor an error |
| DomainList.Render | components/domain-list.tsx:53-79 | the skeleton shows exactly while loading, the error exactly when not loading and it is truthy, and otherwise the zone cards in order |
| DomainList.DomainListState.View | components/domain-list.tsx:53-79 | the component's render of its cells, as stated by `DomainList.Render` |
| DomainList.SilentFailureShowsStaleZones | components/domain-list.tsx:36 | a failed envelope whose errors join to `""` renders the previous zones, not an error |
| DomainList.DomainListState.constructor | components/domain-list.tsx:10-12 | the list starts with no zones, loading and no error |
| DomainList.DomainListState.BeginFetchZones | components/domain-list.tsx:14-18 | with no account it does nothing; otherwise it starts loading and clears the error |
| DomainList.DomainListState.FinishFetchZones | components/domain-list.tsx:19-42 | loading always ends. Success replaces the zones; a non-ok status (`Error: <status> <statusText>`), a failed envelope or a thrown error sets the error and keeps the zones |
| DomainList.DomainListState.HandleDomainDeleted | components/domain-list.tsx:49-51 | every zone with the id is removed and the rest keep their order |
| DomainList.NotOkFetchScenario | components/domain-list.tsx:27-29 | a 403 shows `Error: 403 Forbidden` and keeps the previous zones |
| DomainSidebar.Highlighted | components/domain-sidebar.tsx:72 | a link is highlighted when the route's zone id equals the zone's id, and never outside a zone page |
| DomainSidebar.Links | components/domain-sidebar.tsx:66-77 | one link per zone, in order, to `/zones/<id>`, labelled with the name, highlighted exactly when the route's zone id is that zone's |
| DomainSidebar.AtMostOneHighlighted | components/domain-sidebar.tsx:72 | with distinct zone ids at most one link is highlighted |
| DomainSidebar.Render | components/domain-sidebar.tsx:58-77 | the skeleton and the error are independent blocks; the links appear only when neither is shown |
| DomainSidebar.DomainSidebarState.View | components/domain-sidebar.tsx:58-77 | the component's render of its cells and the route, as stated by `DomainSidebar.Render` |
| DomainSidebar.DomainSidebarState.constructor | components/domain-sidebar.tsx:13-15 | the sidebar starts with no zones, loading and no error |
| DomainSidebar.DomainSidebarState.BeginFetchZones | components/domain-sidebar.tsx:19-23 | with no account it does nothing; otherwise it starts loading and clears the error |
| DomainSidebar.DomainSidebarState.FinishFetchZones | components/domain-sidebar.tsx:24-42 | loading always ends. Success replaces the zones; a non-ok status (`Error: <status>`), a failed envelope or a thrown error sets the error |
| DomainSidebar.HighlightScenario | components/domain-sidebar.tsx:66-77 | after a successful fetch, on a listed zone's page, exactly that zone's link is highlighted |
| AddDomainModal.Title | components/modals/add-domain-modal.tsx:76 | the success title shows exactly in the success view, and the form title exactly in the form |
| AddDomainModal.FooterButton | components/modals/add-domain-modal.tsx:98-103 | "Done" shows exactly in the success view, and "Add Domain" exactly in the form |
| AddDomainModal.AddDomainDialog.constructor | components/modals/add-domain-modal.tsx:27-29 | empty name, no error, no added zone |
| AddDomainModal.AddDomainDialog.View | components/modals/add-domain-modal.tsx:76-96 | the success view shows exactly when a zone was added, and it carries that zone |
| AddDomainModal.AddDomainDialog.SetDomainName | components/modals/add-domain-modal.tsx:90 | the input sets the name |
| AddDomainModal.AddDomainDialog.HandleSubmit | components/modals/add-domain-modal.tsx:31-61 | with no account it does nothing. Otherwise it POSTs `{name, account.id, jump_start: true}` and clears the error. A successful envelope, whatever the status, returns the zone and switches to the success view; a failure sets the error |
| AddDomainModal.AddDomainDialog.HandleClose | components/modals/add-domain-modal.tsx:63-70 | it asks to close and resets name, error and added zone, returning to the form |
| AddDomainModal.AddThenCloseScenario | components/modals/add-domain-modal.tsx:31-70 | adding a zone shows its success view; closing brings back an empty form |
| AddAccountModal.FailureMessage | components/modals/add-account-modal.tsx:39 | the shown message is the result's error when truthy, else the unknown-error text; it is never falsy |
| AddAccountModal.AddAccountDialog.constructor | components/modals/add-account-modal.tsx:22-25 | empty inputs, no error, not loading |
| AddAccountModal.AddAccountDialog.SetCredentials | components/modals/add-account-modal.tsx:58-76 | the two inputs set email and key |
| AddAccountModal.AddAccountDialog.BeginSubmit | components/modals/add-account-modal.tsx:28-31 | it goes ahead exactly when both inputs are non-empty, and then sets loading and clears the error |
| AddAccountModal.AddAccountDialog.FinishSubmit | components/modals/add-account-modal.tsx:32-40 | loading ends. On success it asks to close and clears both inputs; on failure it shows the message and keeps the inputs |
| AddAccountModal.AddAccountDialog.Submit | components/modals/add-account-modal.tsx:28-42 | against the registry: with an empty input nothing changes, the dialog's cells included. Verified credentials are appended, the selection moves as an add prescribes, and the dialog clears its inputs and error and asks to close; rejected ones leave the registry unchanged, keep the inputs and show the reason. The registry invariant is kept |

## Left out

- The credential-forwarding API route (app/api/cloudflare/[...path]/route.ts) is not part of this model. Requests are recorded as values (method, path, the two credential headers, body), not forwarded.
- Persistence: the two registry cells are plain fields; the local-storage hook is not part of this model.
- Network I/O, `res.json()` and JSON serialisation are not modelled. Every fetch is an input outcome. Serialisation would send a NaN priority or SRV number as `null`, and the body keeps the number.
- The envelope's `messages` field and the record's `meta` field are omitted, because no handler reads them.
- React rendering is abstracted to which blocks a view shows, with no markup. The skeleton sizes, icons, dashboard refresh counter, domain cards, name-server instructions and account switcher are out.
- Effect timing and concurrency are not modelled: overlapping fetches, stale responses overwriting newer ones, and effects re-running. Effects are methods the caller invokes.
- AddDomainModal.AddDomainDialog.HandleClose: the reset happens at once rather than after the 300 ms timer.
- Text.IntToString: renders every integer in plain decimal, whereas JavaScript switches to exponent notation at 1e21 and beyond.
- The provider guard of `useAccounts` outside its provider is a framework check.
- Input setters other than the ones listed are plain assignments to the cells named in the table.
- AddDnsRecordModal.WithSrvField: requires that a number field gets a number and a text field a text, which the typed inputs guarantee. The source's setter accepts either.
- Logging to the console is not modelled: the error logged when the zone details fetch throws (components/dns-record-management.tsx:35) and when a row's delete throws (components/dns-record-row.tsx:40-41). Both handlers otherwise swallow the error, as the model does.
- The SRV form has no input for `srvData.name`, so its content's third field is always empty. The round trip is stated for single-space splitting, which keeps empty fields.
