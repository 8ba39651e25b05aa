/**
 * The admin user-management page, src/backend/dashboards/admindash/components/AccountSettings.jsx:
 * its tabs of active, deactivated and deleted users with a search box, the required-field
 * check before a new user is sent to the server, and the status a deactivate/activate
 * button asks for. Requests the page sends are recorded in `sent`.
 */
module AccountsView {
  import opened Wrappers
  import opened Text
  import opened Seqs
  import Forms
  import Users
  import AdminRoutes

  /** A listed user, as the page keeps it after loading. */
  datatype ListedUser = ListedUser(id: nat, username: string, email: string, contactNumber: Option<string>,
                                   isActive: bool)

  datatype Tab = ActiveTab | DeactivatedTab | DeletedTab | OtherTab

  predicate ContactMatches(u: ListedUser, query: string) {
    Truthy(u.contactNumber) && Includes(u.contactNumber.value, query)
  }

  /** The search: lower-cased username or email, or the raw contact number, contains the lower-cased query. */
  predicate SearchMatches(u: ListedUser, query: string) {
    Includes(ToLower(u.username), query) || Includes(ToLower(u.email), query) || ContactMatches(u, query)
  }

  function IsActiveUser(u: ListedUser): bool { u.isActive }

  function IsInactiveUser(u: ListedUser): bool { !u.isActive }

  function Searcher(query: string): ListedUser -> bool {
    (u: ListedUser) => SearchMatches(u, query)
  }

  /** The users a tab shows before searching. */
  function TabUsers(users: seq<ListedUser>, deletedUsers: seq<ListedUser>, tab: Tab): (r: seq<ListedUser>)
    ensures tab == ActiveTab ==> forall u :: u in r <==> u in users && u.isActive
    ensures tab == DeactivatedTab ==> forall u :: u in r <==> u in users && !u.isActive
    ensures tab == DeletedTab ==> r == deletedUsers
    ensures tab == OtherTab ==> r == []
  {
    match tab
    case ActiveTab => Filter(users, IsActiveUser)
    case DeactivatedTab => Filter(users, IsInactiveUser)
    case DeletedTab => deletedUsers
    case OtherTab => []
  }

  /** `getFilteredUsers`: the tab's users, narrowed by a non-blank search. */
  function FilteredUsers(users: seq<ListedUser>, deletedUsers: seq<ListedUser>, tab: Tab, searchQuery: string)
    : (r: seq<ListedUser>)
    ensures IsBlank(searchQuery) ==> r == TabUsers(users, deletedUsers, tab)
    ensures !IsBlank(searchQuery) ==>
      forall u :: u in r <==> u in TabUsers(users, deletedUsers, tab) && SearchMatches(u, ToLower(searchQuery))
  {
    var shown := TabUsers(users, deletedUsers, tab);
    if IsBlank(searchQuery) then shown else Filter(shown, Searcher(ToLower(searchQuery)))
  }

  /** The active and deactivated tabs split the live users between them, whatever the search. */
  lemma TabsPartitionUsers(users: seq<ListedUser>, deletedUsers: seq<ListedUser>, searchQuery: string, u: ListedUser)
    requires u in users
    requires IsBlank(searchQuery) || SearchMatches(u, ToLower(searchQuery))
    ensures u in FilteredUsers(users, deletedUsers, ActiveTab, searchQuery) <==> u.isActive
    ensures u in FilteredUsers(users, deletedUsers, DeactivatedTab, searchQuery) <==> !u.isActive
  {
  }

  const RequiredFields: seq<string> := ["firstName", "lastName", "username", "email", "password"]

  /** `handleSaveNewUser`'s check: every required field present and non-empty. */
  predicate RequiredFilled(data: map<string, string>) {
    forall k :: 0 <= k < |RequiredFields| ==> Truthy(Forms.Get(data, RequiredFields[k]))
  }

  /** The create request's body: the form's fields as `JSON.stringify(formData)` sends them. */
  function RequestBody(data: map<string, string>): AdminRoutes.NewUser {
    var get := (f: string) => Forms.Get(data, f);
    AdminRoutes.NewUser(get("firstName"), get("middleInitial"), get("lastName"), get("username"), get("email"),
                        get("password"),
                        Users.Address(get("contactNumber"), get("countryCode"), get("region"), get("country"),
                                      get("city"), get("address"), get("postalCode")),
                        get("role"))
  }

  /** The page's check is exactly the server's required-field check on the body it sends. */
  lemma RequiredFilledMatchesServer(data: map<string, string>)
    ensures RequiredFilled(data) <==> !AdminRoutes.MissingRequired(RequestBody(data))
  {
    if !AdminRoutes.MissingRequired(RequestBody(data)) {
      forall k | 0 <= k < |RequiredFields|
        ensures Truthy(Forms.Get(data, RequiredFields[k]))
      {
        assert RequiredFields[k] in {"firstName", "lastName", "username", "email", "password"};
      }
    } else {
      assert RequiredFields[0] == "firstName" && RequiredFields[2] == "username";
      assert RequiredFields[1] == "lastName" && RequiredFields[3] == "email" && RequiredFields[4] == "password";
    }
  }

  /** `currentStatus === 1 ? 0 : 1`: the status a deactivate or activate button asks for. */
  function NextStatus(currentStatus: int): (r: int)
    ensures r == 0 <==> currentStatus == 1
    ensures r == 0 || r == 1
  {
    if currentStatus == 1 then 0 else 1
  }

  /** The `is_active` column as the page receives it: the driver returns the TINYINT 1 or 0. */
  function StoredFlag(active: bool): (r: int)
    ensures r == 1 <==> active
    ensures r == 0 <==> !active
  {
    if active then 1 else 0
  }

  /**
   * The status the button asks for is the one `PUT /users/:id/status` stores: for a listed
   * user whose flag is the stored row's, the body's `isActive` is the toggled row's flag. The
   * server never reads that body, so the two agree only because the page's list is current.
   */
  lemma NextStatusIsToggle(u: ListedUser, row: Users.UserRow)
    requires u.isActive == row.isActive
    ensures NextStatus(StoredFlag(u.isActive)) == StoredFlag(AdminRoutes.Toggled(row).isActive)
    ensures NextStatus(StoredFlag(u.isActive)) == 1 <==> AdminRoutes.Toggled(row).isActive
  {
  }

  const MissingFieldsError: string := "Please fill in all required fields"
  const CreatedMessage: string := "User created successfully"
  const CreateFailedMessage: string := "Failed to create user"

  /** What `handleAddUser` resets the form to: every field empty, country code +63 and role "user". */
  const BlankNewUser: map<string, string> := map[
    "firstName" := "", "middleInitial" := "", "lastName" := "", "username" := "", "email" := "",
    "password" := "", "contactNumber" := "", "countryCode" := Forms.DefaultCountryCode, "region" := "",
    "country" := "", "city" := "", "address" := "", "postalCode" := "", "role" := Forms.DefaultRole]

  /**
   * The page's new-user form, whether its dialog is open, its notification and the create
   * requests it has sent. The server's answer to a request is the parameter `accepted`, and
   * the `message` of a refusal is `serverError`.
   */
  class AccountsPage {
    const form: Forms.FormData
    var addModalOpen: bool
    var notification: Option<string>
    var sent: seq<AdminRoutes.NewUser>

    constructor (form: Forms.FormData)
      ensures this.form == form && !addModalOpen && notification.None? && sent == []
    {
      this.form := form;
      addModalOpen, notification, sent := false, None, [];
    }

    /** `handleAddUser`: the form is reset to a blank user and the dialog opens. */
    method OpenAddModal()
      modifies this, form
      ensures form.data == BlankNewUser && addModalOpen
      ensures notification == old(notification) && sent == old(sent)
    {
      form.data := BlankNewUser;
      addModalOpen := true;
    }

    /**
     * `handleSaveNewUser`: without every required field nothing is sent and an error is shown.
     * Otherwise the form is sent; an accepted user closes the dialog with a success message,
     * and a refusal keeps it open and shows the server's message or a generic failure.
     */
    method SaveNewUser(accepted: bool, serverError: Option<string>)
      modifies this
      ensures !RequiredFilled(form.data) ==>
        notification == Some(MissingFieldsError) && sent == old(sent) && addModalOpen == old(addModalOpen)
      ensures RequiredFilled(form.data) ==> sent == old(sent) + [RequestBody(form.data)]
      ensures RequiredFilled(form.data) && accepted ==> notification == Some(CreatedMessage) && !addModalOpen
      ensures RequiredFilled(form.data) && !accepted ==>
        notification == Some(OrElse(serverError, CreateFailedMessage)) && addModalOpen == old(addModalOpen)
    {
      if !RequiredFilled(form.data) {
        notification := Some(MissingFieldsError);
        return;
      }
      sent := sent + [RequestBody(form.data)];
      if accepted {
        notification := Some(CreatedMessage);
        addModalOpen := false;
      } else {
        notification := Some(OrElse(serverError, CreateFailedMessage));
      }
    }
  }

  /** A blank new user is refused by the page's own check, so opening the dialog and saving at once sends nothing. */
  lemma BlankNewUserRefused()
    ensures !RequiredFilled(BlankNewUser)
  {
    assert RequiredFields[0] == "firstName";
  }
}
