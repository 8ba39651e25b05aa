/**
 * The admin product and order settings page,
 * src/backend/dashboards/admindash/components/ProductSettings.jsx: the guard on order status
 * changes with its confirmation dialog, the search filters over the user and order tables,
 * and the 150-character product description. A status change request the page sends is
 * recorded in `sent`; whether the server accepted it is the parameter `accepted`.
 */
module OrderAdminView {
  import opened Wrappers
  import opened Text
  import opened Seqs

  const Pending: string := "pending"
  const Processing: string := "processing"
  const Shipped: string := "shipped"
  const Delivered: string := "delivered"

  const MaxDescriptionLength: nat := 150

  /** Shipped and delivered are the statuses that need a confirmation and cannot be left backwards. */
  predicate IsFinalStep(status: string) { status == Shipped || status == Delivered }

  predicate IsEarlyStep(status: string) { status == Pending || status == Processing }

  /** What the page does with a chosen status. */
  datatype Action = Refuse | AskConfirm | Send

  /**
   * `handleUpdateOrderStatus`: going from shipped or delivered back to pending or processing
   * is refused; going to shipped or delivered waits for a confirmation; anything else is sent.
   */
  function Decide(currentStatus: string, newStatus: string): (a: Action)
    ensures a == Refuse <==> IsFinalStep(currentStatus) && IsEarlyStep(newStatus)
    ensures a == AskConfirm <==> IsFinalStep(newStatus)
    ensures a == Send <==> !IsFinalStep(newStatus) && !(IsFinalStep(currentStatus) && IsEarlyStep(newStatus))
  {
    if IsFinalStep(currentStatus) && IsEarlyStep(newStatus) then Refuse
    else if IsFinalStep(newStatus) then AskConfirm
    else Send
  }

  /** A status change request: `PATCH /api/admin/orders/:orderId/status`. */
  datatype StatusUpdate = StatusUpdate(orderId: nat, status: string)

  /** The confirmation dialog's contents. */
  datatype PendingChange = PendingChange(orderId: nat, newStatus: string, message: string)

  const RevertError: string := "Cannot revert shipped/delivered orders to pending/processing"

  function ConfirmMessage(newStatus: string): string {
    if newStatus == Shipped then "Mark this order as shipped? Stock will be decremented."
    else "Mark this order as delivered?"
  }

  const StockUpdatedMessage: string := "Order shipped! Stock has been updated."
  const StatusUpdatedMessage: string := "Order status updated"
  const UpdateFailedMessage: string := "Failed to update order"

  /**
   * The notification `updateOrderStatusAPI` sets once the server has answered: a refusal
   * fails, an accepted update says whether stock was decremented (`stockUpdated` in the reply).
   */
  function StatusAnswer(accepted: bool, stockUpdated: bool): (r: string)
    ensures r == UpdateFailedMessage <==> !accepted
    ensures r == StockUpdatedMessage <==> accepted && stockUpdated
    ensures r == StatusUpdatedMessage <==> accepted && !stockUpdated
  {
    if !accepted then UpdateFailedMessage
    else if stockUpdated then StockUpdatedMessage
    else StatusUpdatedMessage
  }

  /** A row of the order tables the page searches. */
  datatype OrderSummary = OrderSummary(id: nat, orderNumber: Option<string>, username: Option<string>,
                                       products: Option<string>)

  /** A row of the users table the page searches. */
  datatype UserSummary = UserSummary(id: nat, username: Option<string>, email: Option<string>,
                                     firstName: Option<string>, lastName: Option<string>)

  /** `v?.toLowerCase().includes(query)`: false for a missing value. */
  predicate FieldMatches(v: Option<string>, query: string) {
    v.Some? && Includes(ToLower(v.value), query)
  }

  /** How a template literal shows a nullable column: a missing one reads "null". */
  function Shown(v: Option<string>): string {
    if v.Some? then v.value else "null"
  }

  predicate OrderMatches(o: OrderSummary, query: string) {
    FieldMatches(o.orderNumber, query) || FieldMatches(o.username, query) || FieldMatches(o.products, query)
    || Includes(NatToString(o.id), query)
  }

  predicate UserMatches(u: UserSummary, query: string) {
    Includes(NatToString(u.id), query) || FieldMatches(u.username, query) || FieldMatches(u.email, query)
    || FieldMatches(u.firstName, query) || FieldMatches(u.lastName, query)
    || Includes(ToLower(Shown(u.firstName) + " " + Shown(u.lastName)), query)
  }

  function OrderMatcher(query: string): OrderSummary -> bool {
    (o: OrderSummary) => OrderMatches(o, query)
  }

  function UserMatcher(query: string): UserSummary -> bool {
    (u: UserSummary) => UserMatches(u, query)
  }

  /**
   * `filterOrders`: a blank search keeps the list; otherwise the orders whose number,
   * customer, products or id contain the lower-cased search, in their order.
   */
  function FilterOrders(orders: seq<OrderSummary>, searchQuery: string): (r: seq<OrderSummary>)
    ensures IsBlank(searchQuery) ==> r == orders
    ensures !IsBlank(searchQuery) ==> forall k :: 0 <= k < |r| ==> OrderMatches(r[k], ToLower(searchQuery))
    ensures !IsBlank(searchQuery) ==> forall o :: o in orders && OrderMatches(o, ToLower(searchQuery)) ==> o in r
    ensures forall o :: o in r ==> o in orders
    ensures multiset(r) <= multiset(orders)
  {
    if IsBlank(searchQuery) then orders else Filter(orders, OrderMatcher(ToLower(searchQuery)))
  }

  /**
   * `filterUsers`: a blank search keeps the list; otherwise the users whose id, username,
   * email, first, last or full name contain the lower-cased search, in their order.
   */
  function FilterUsers(users: seq<UserSummary>, searchQuery: string): (r: seq<UserSummary>)
    ensures IsBlank(searchQuery) ==> r == users
    ensures !IsBlank(searchQuery) ==> forall k :: 0 <= k < |r| ==> UserMatches(r[k], ToLower(searchQuery))
    ensures !IsBlank(searchQuery) ==> forall u :: u in users && UserMatches(u, ToLower(searchQuery)) ==> u in r
    ensures forall u :: u in r ==> u in users
    ensures multiset(r) <= multiset(users)
  {
    if IsBlank(searchQuery) then users else Filter(users, UserMatcher(ToLower(searchQuery)))
  }

  /** Searching the search's own result again changes nothing. */
  lemma FilterOrdersIdempotent(orders: seq<OrderSummary>, searchQuery: string)
    ensures FilterOrders(FilterOrders(orders, searchQuery), searchQuery) == FilterOrders(orders, searchQuery)
  {
    if !IsBlank(searchQuery) {
      FilterAll(FilterOrders(orders, searchQuery), OrderMatcher(ToLower(searchQuery)));
    }
  }

  lemma FilterUsersIdempotent(users: seq<UserSummary>, searchQuery: string)
    ensures FilterUsers(FilterUsers(users, searchQuery), searchQuery) == FilterUsers(users, searchQuery)
  {
    if !IsBlank(searchQuery) {
      FilterAll(FilterUsers(users, searchQuery), UserMatcher(ToLower(searchQuery)));
    }
  }

  lemma IncludesSelf(s: string)
    ensures Includes(s, s)
  {
    assert s[0..] == s;
  }

  /** Searching for an order's own number always finds that order. */
  lemma OrderNumberFindsOrder(orders: seq<OrderSummary>, o: OrderSummary)
    requires o in orders && o.orderNumber.Some?
    ensures o in FilterOrders(orders, o.orderNumber.value)
  {
    var n := o.orderNumber.value;
    if !IsBlank(n) {
      IncludesSelf(ToLower(n));
      assert OrderMatches(o, ToLower(n));
    }
  }

  /** Searching for a user's own username always finds that user. */
  lemma UsernameFindsUser(users: seq<UserSummary>, u: UserSummary)
    requires u in users && u.username.Some?
    ensures u in FilterUsers(users, u.username.value)
  {
    var n := u.username.value;
    if !IsBlank(n) {
      IncludesSelf(ToLower(n));
      assert UserMatches(u, ToLower(n));
    }
  }

  /** The description editor: an edit longer than 150 characters is ignored. */
  function EditedDescription(current: string, value: string): (r: string)
    ensures r == value <==> |value| <= MaxDescriptionLength || value == current
    ensures r != value ==> r == current
    ensures |current| <= MaxDescriptionLength ==> |r| <= MaxDescriptionLength
  {
    if |value| <= MaxDescriptionLength then value else current
  }

  /** The page's order-status and description state. */
  class SettingsPage {
    var confirmModal: Option<PendingChange>
    var notification: Option<string>
    var sent: seq<StatusUpdate>
    var description: string

    /** A waiting confirmation is always for shipping or delivering. */
    ghost predicate Valid()
      reads this
    {
      confirmModal.Some? ==> IsFinalStep(confirmModal.value.newStatus)
    }

    constructor (description: string)
      ensures Valid()
      ensures confirmModal.None? && notification.None? && sent == [] && this.description == description
    {
      confirmModal, notification, sent := None, None, [];
      this.description := description;
    }

    /**
     * `handleUpdateOrderStatus`. A change that is sent is answered by the server: `accepted`
     * tells whether it succeeded and `stockUpdated` is the reply's flag.
     */
    method UpdateOrderStatus(orderId: nat, newStatus: string, currentStatus: string, accepted: bool, stockUpdated: bool)
      requires Valid()
      modifies this
      ensures Valid()
      ensures Decide(currentStatus, newStatus) == Refuse ==>
        notification == Some(RevertError) && sent == old(sent) && confirmModal == old(confirmModal)
      ensures Decide(currentStatus, newStatus) == AskConfirm ==>
        confirmModal == Some(PendingChange(orderId, newStatus, ConfirmMessage(newStatus)))
        && sent == old(sent) && notification == old(notification)
      ensures Decide(currentStatus, newStatus) == Send ==>
        sent == old(sent) + [StatusUpdate(orderId, newStatus)]
        && confirmModal == old(confirmModal) && notification == Some(StatusAnswer(accepted, stockUpdated))
      ensures description == old(description)
    {
      if IsFinalStep(currentStatus) && IsEarlyStep(newStatus) {
        notification := Some(RevertError);
        return;
      }
      if IsFinalStep(newStatus) {
        confirmModal := Some(PendingChange(orderId, newStatus, ConfirmMessage(newStatus)));
        return;
      }
      sent := sent + [StatusUpdate(orderId, newStatus)];
      notification := Some(StatusAnswer(accepted, stockUpdated));
    }

    /** `handleConfirmStatusChange`: send the waiting change, show the server's answer, then close the dialog. */
    method ConfirmStatusChange(accepted: bool, stockUpdated: bool)
      requires Valid()
      modifies this
      ensures Valid()
      ensures confirmModal.None?
      ensures old(confirmModal).Some? ==>
        sent == old(sent) + [StatusUpdate(old(confirmModal).value.orderId, old(confirmModal).value.newStatus)]
        && notification == Some(StatusAnswer(accepted, stockUpdated))
      ensures old(confirmModal).None? ==> sent == old(sent) && notification == old(notification)
      ensures description == old(description)
    {
      if confirmModal.Some? {
        sent := sent + [StatusUpdate(confirmModal.value.orderId, confirmModal.value.newStatus)];
        notification := Some(StatusAnswer(accepted, stockUpdated));
        confirmModal := None;
      }
    }

    /** `handleCancelStatusChange`: close the dialog without sending anything. */
    method CancelStatusChange()
      requires Valid()
      modifies this
      ensures Valid()
      ensures confirmModal.None? && sent == old(sent)
      ensures notification == old(notification) && description == old(description)
    {
      confirmModal := None;
    }

    /** The description textarea's change handler. */
    method TypeDescription(value: string)
      modifies this
      ensures description == EditedDescription(old(description), value)
      ensures confirmModal == old(confirmModal) && notification == old(notification) && sent == old(sent)
    {
      if |value| <= MaxDescriptionLength {
        description := value;
      }
    }
  }
}
