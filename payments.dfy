/** PayPal purchases (paypal_payment.py): the fixed package catalog, the
    `payments` table with its `pending -> order_created -> completed` life
    cycle, the `custom_id` correlation string, and the three operations that
    grant credits (`verify_payment`, `capture_paypal_payment` and
    `handle_paypal_webhook`). PayPal itself is a set of parameters: whether an
    access token was obtained, and functions from what is sent to what comes
    back. */
module Payments {
  import opened Wrappers
  import Text
  import Database

  // ---------------------------------------------------------------------------
  // Catalog
  // ---------------------------------------------------------------------------

  /** A credit package; prices are in cents. */
  datatype Package = Package(credits: int, priceCents: nat, currency: string, name: string)

  /** `CREDIT_PACKAGES`, keyed by package id. */
  const CREDIT_PACKAGES: map<string, Package> := map[
    "basic" := Package(50, 500, "USD", "Paquete Básico"),
    "standard" := Package(150, 1000, "USD", "Paquete Estándar"),
    "premium" := Package(500, 2500, "USD", "Paquete Premium")
  ]

  /** The dictionary's insertion order, which is the order its items are listed in. */
  const PACKAGE_ORDER: seq<string> := ["basic", "standard", "premium"]

  /** `package_id in CREDIT_PACKAGES` / `CREDIT_PACKAGES[package_id]`. */
  function FindPackage(id: string): (r: Option<Package>)
    ensures r.Some? <==> id in CREDIT_PACKAGES
    ensures r.Some? ==> r.value == CREDIT_PACKAGES[id]
  {
    if id in CREDIT_PACKAGES then Some(CREDIT_PACKAGES[id]) else None
  }

  /** The listing order names every package exactly once, and every package
      grants a positive number of credits. */
  lemma CatalogShape()
    ensures forall i, j :: 0 <= i < j < |PACKAGE_ORDER| ==> PACKAGE_ORDER[i] != PACKAGE_ORDER[j]
    ensures forall id :: id in CREDIT_PACKAGES <==> id in PACKAGE_ORDER
    ensures forall id :: id in CREDIT_PACKAGES ==> CREDIT_PACKAGES[id].credits > 0
  {
  }

  // ---------------------------------------------------------------------------
  // Payment records
  // ---------------------------------------------------------------------------

  datatype PaymentStatus = Pending | OrderCreated | Completed

  /** Position of a status in the intended life cycle. */
  function Rank(s: PaymentStatus): nat
  {
    match s
    case Pending => 0
    case OrderCreated => 1
    case Completed => 2
  }

  /** A row of `payments`. `orderId` is `paypal_order_id`, `captureId` is
      `paypal_payment_id`. */
  datatype PaymentRecord = PaymentRecord(
    paymentId: string,
    userId: int,
    amountCents: nat,
    currency: string,
    credits: int,
    status: PaymentStatus,
    orderId: Option<string>,
    captureId: Option<string>,
    createdAt: int,
    updatedAt: int)

  /** Python truthiness of an optional string: present and not empty. */
  predicate Truthy(o: Option<string>)
  {
    o.Some? && o.value != ""
  }

  /** The record `create_payment_record` inserts for a package. */
  function NewRecord(paymentId: string, userId: int, p: Package, now: int): (r: PaymentRecord)
    ensures r.paymentId == paymentId && r.userId == userId && r.status == Pending
    ensures r.amountCents == p.priceCents && r.currency == p.currency && r.credits == p.credits
    ensures r.orderId == None && r.captureId == None
  {
    PaymentRecord(paymentId, userId, p.priceCents, p.currency, p.credits, Pending, None, None, now, now)
  }

  /** One record after `update_payment_status`: the status and `updated_at`
      always change; the order and capture ids change only when a truthy value
      is given; nothing else changes. */
  function WithStatus(r: PaymentRecord, status: PaymentStatus, orderId: Option<string>,
                      captureId: Option<string>, now: int): (r': PaymentRecord)
    ensures r'.status == status && r'.updatedAt == now
    ensures r'.orderId == (if Truthy(orderId) then orderId else r.orderId)
    ensures r'.captureId == (if Truthy(captureId) then captureId else r.captureId)
    ensures r'.paymentId == r.paymentId && r'.userId == r.userId && r'.amountCents == r.amountCents
            && r'.currency == r.currency && r'.credits == r.credits && r'.createdAt == r.createdAt
  {
    var withOrder := if Truthy(orderId) then r.(orderId := orderId) else r;
    var withCapture := if Truthy(captureId) then withOrder.(captureId := captureId) else withOrder;
    withCapture.(status := status, updatedAt := now)
  }

  /** Amount, currency and credits are those of some catalog package. */
  ghost predicate FromCatalog(r: PaymentRecord)
  {
    exists id :: id in CREDIT_PACKAGES && r.amountCents == CREDIT_PACKAGES[id].priceCents
                 && r.currency == CREDIT_PACKAGES[id].currency && r.credits == CREDIT_PACKAGES[id].credits
  }

  /** No record disappears and no status moves backwards in the life cycle. */
  ghost predicate NoRegression(before: map<string, PaymentRecord>, after: map<string, PaymentRecord>)
  {
    && before.Keys <= after.Keys
    && forall id :: id in before ==> Rank(before[id].status) <= Rank(after[id].status)
  }

  /** `after` differs from `before` only in the record `id`, which is now
      completed and still belongs to the same user with the same credits. */
  ghost predicate CompletedOnly(before: map<string, PaymentRecord>, after: map<string, PaymentRecord>, id: string)
  {
    && id in before && after.Keys == before.Keys
    && (forall other :: other in before && other != id ==> after[other] == before[other])
    && after[id].status == Completed
    && after[id].userId == before[id].userId && after[id].credits == before[id].credits
  }

  /** Marking one record completed through `update_payment_status` changes that record only. */
  lemma CompletingChangesOnlyThatRecord(before: map<string, PaymentRecord>, id: string,
                                        captureId: Option<string>, now: int)
    requires id in before
    ensures CompletedOnly(before, before[id := WithStatus(before[id], Completed, None, captureId, now)], id)
  {
  }

  lemma NoRegressionTransitive(a: map<string, PaymentRecord>, b: map<string, PaymentRecord>,
                               c: map<string, PaymentRecord>)
    requires NoRegression(a, b) && NoRegression(b, c)
    ensures NoRegression(a, c)
  {
  }

  /** The `payments` table. */
  class PaymentTable {
    var records: map<string, PaymentRecord>

    ghost predicate Valid()
      reads this
    {
      forall id :: id in records ==> records[id].paymentId == id && FromCatalog(records[id])
    }

    constructor ()
      ensures Valid() && records == map[]
    {
      records := map[];
    }

    /** `create_payment_record`: an unknown package, or an id already in the
        table (the primary key rejects the insert), yields `None` and inserts
        nothing; otherwise one pending record with the package's price,
        currency and credits is inserted under the supplied id, or under the
        generated one when none (or an empty one) is supplied. */
    method CreatePaymentRecord(userId: int, packageId: string, supplied: Option<string>,
                               generated: string, now: int) returns (paymentId: Option<string>)
      requires Valid()
      modifies this
      ensures Valid()
      ensures var id := if Truthy(supplied) then supplied.value else generated;
        if FindPackage(packageId).None? || id in old(records) then
          paymentId == None && records == old(records)
        else
          paymentId == Some(id)
          && records == old(records)[id := NewRecord(id, userId, FindPackage(packageId).value, now)]
    {
      var package := FindPackage(packageId);
      if package.None? {
        return None;
      }
      var id := if Truthy(supplied) then supplied.value else generated;
      if id in records {
        return None;
      }
      records := records[id := NewRecord(id, userId, package.value, now)];
      paymentId := Some(id);
    }

    /** `update_payment_status`: rewrites only the named record, and only the
        fields it is given; an unknown id changes nothing. */
    method UpdatePaymentStatus(paymentId: string, status: PaymentStatus, orderId: Option<string>,
                               captureId: Option<string>, now: int)
      requires Valid()
      modifies this
      ensures Valid()
      ensures paymentId in old(records) ==>
        records == old(records)[paymentId := WithStatus(old(records)[paymentId], status, orderId, captureId, now)]
      ensures paymentId !in old(records) ==> records == old(records)
    {
      if paymentId in records {
        records := records[paymentId := WithStatus(records[paymentId], status, orderId, captureId, now)];
      }
    }

    /** `get_payment_info`. */
    function GetPaymentInfo(paymentId: string): (r: Option<PaymentRecord>)
      reads this
      ensures r.Some? <==> paymentId in records
      ensures r.Some? ==> r.value == records[paymentId]
    {
      if paymentId in records then Some(records[paymentId]) else None
    }
  }

  /** The shape of `str(uuid.uuid4())`: lower-case hexadecimal digits and dashes. */
  predicate UuidText(s: string)
  {
    forall i :: 0 <= i < |s| ==> Text.IsDigit(s[i]) || ('a' <= s[i] <= 'f') || s[i] == '-'
  }

  // ---------------------------------------------------------------------------
  // custom_id: "user:payment:package:credits"
  // ---------------------------------------------------------------------------

  /** The `custom_id` put on the PayPal order. When neither id contains a
      colon, its `:`-separated fields are exactly user, payment, package and
      credits. */
  function CustomId(userId: int, paymentId: string, packageId: string, credits: int): (s: string)
    ensures ':' !in paymentId && ':' !in packageId ==>
      Text.Split(s, ':') == [Text.IntToString(userId), paymentId, packageId, Text.IntToString(credits)]
  {
    var us := Text.IntToString(userId);
    var cs := Text.IntToString(credits);
    var tail3 := packageId + [':'] + cs;
    var tail2 := paymentId + [':'] + tail3;
    var s := us + [':'] + paymentId + [':'] + packageId + [':'] + cs;
    if ':' in paymentId || ':' in packageId then s
    else
      IntToStringHasNoColon(userId);
      assert s == us + [':'] + tail2;
      Text.SplitAfterField(us, tail2, ':');
      Text.SplitAfterField(paymentId, tail3, ':');
      Text.SplitAfterField(packageId, cs, ':');
      IntToStringHasNoColon(credits);
      Text.SplitField(cs, ':');
      s
  }

  /** What the webhook takes from a `custom_id`: user, payment and credits
      (the package part is ignored). */
  datatype CustomRef = CustomRef(userId: int, paymentId: string, credits: int)

  /** The webhook's parse: exactly four `:`-separated parts whose first and
      last read as integers; `None` for the error and exception paths. */
  function ParseCustomId(s: string): (r: Option<CustomRef>)
    ensures r.Some? ==> ':' !in r.value.paymentId
  {
    var parts := Text.Split(s, ':');
    if |parts| != 4 then None
    else
      match (Text.ParseInt(parts[0]), Text.ParseInt(parts[3]))
      case (Some(u), Some(c)) => Some(CustomRef(u, parts[1], c))
      case _ => None
  }

  lemma IntToStringHasNoColon(i: int)
    ensures ':' !in Text.IntToString(i)
  {
  }

  /** Parsing the `custom_id` built for an order gives back its user, payment
      id and credits, provided neither id contains a colon. */
  lemma {:induction false} CustomIdParses(userId: int, paymentId: string, packageId: string, credits: int)
    requires ':' !in paymentId && ':' !in packageId
    ensures ParseCustomId(CustomId(userId, paymentId, packageId, credits)) == Some(CustomRef(userId, paymentId, credits))
  {
    Text.ParseIntToString(userId);
    Text.ParseIntToString(credits);
  }

  /** A colon inside either id adds parts to the split, so the webhook sees
      more than four and drops the event. */
  lemma {:induction false} CustomIdWithColonIsDropped(userId: int, paymentId: string, packageId: string, credits: int)
    requires ':' in paymentId || ':' in packageId
    ensures ParseCustomId(CustomId(userId, paymentId, packageId, credits)) == None
  {
    var us := Text.IntToString(userId);
    var cs := Text.IntToString(credits);
    IntToStringHasNoColon(userId);
    IntToStringHasNoColon(credits);
    Text.CountCharZero(us, ':');
    Text.CountCharZero(cs, ':');
    Text.CountCharZero(paymentId, ':');
    Text.CountCharZero(packageId, ':');
    var s := CustomId(userId, paymentId, packageId, credits);
    assert s == us + ([':'] + (paymentId + ([':'] + (packageId + ([':'] + cs)))));
    Text.CountCharConcat(packageId, [':'] + cs, ':');
    Text.CountCharConcat([':'], cs, ':');
    Text.CountCharConcat([':'], packageId + ([':'] + cs), ':');
    Text.CountCharConcat(paymentId, [':'] + (packageId + ([':'] + cs)), ':');
    Text.CountCharConcat([':'], paymentId + ([':'] + (packageId + ([':'] + cs))), ':');
    Text.CountCharConcat(us, [':'] + (paymentId + ([':'] + (packageId + ([':'] + cs)))), ':');
    Text.SplitCount(s, ':');
  }

  /** The custom_id round trip, in both directions: the parse gives back the
      user, payment id and credits exactly when neither id contains a colon. */
  lemma CustomIdRoundTrip(userId: int, paymentId: string, packageId: string, credits: int)
    ensures ParseCustomId(CustomId(userId, paymentId, packageId, credits)) == Some(CustomRef(userId, paymentId, credits))
            <==> ':' !in paymentId && ':' !in packageId
  {
    if ':' !in paymentId && ':' !in packageId {
      CustomIdParses(userId, paymentId, packageId, credits);
    } else {
      CustomIdWithColonIsDropped(userId, paymentId, packageId, credits);
    }
  }

  // ---------------------------------------------------------------------------
  // PayPal, as seen from here
  // ---------------------------------------------------------------------------

  /** One entry of an order's `links`; either key may be missing. */
  datatype Link = Link(rel: Option<string>, href: Option<string>)

  /** What `create_paypal_payment_link` sends when it creates an order. */
  datatype OrderRequest = OrderRequest(
    referenceId: string,
    customId: string,
    currency: string,
    amountCents: nat,
    returnUrl: string,
    cancelUrl: string)

  /** Order creation: a status other than 200/201 (or a request that raised),
      or the created order's `id` and `links`. */
  datatype OrderCreation = OrderRejected | OrderAccepted(orderId: Option<string>, links: seq<Link>)

  /** The GET of an order: a failed request, or the order's status. */
  datatype OrderLookup = LookupFailed | OrderCompleted | OrderApproved | OrderInOtherState

  /** The capture call: a failed request, a status other than COMPLETED, or
      COMPLETED with the id of the first capture, if any. */
  datatype CaptureResponse = CaptureFailed | CaptureNotCompleted | CaptureCompleted(captureId: Option<string>)

  /** What `create_paypal_payment_link` returns on success. */
  datatype PaymentLink = PaymentLink(paymentId: string, checkoutUrl: string, orderId: Option<string>)

  /** A deserialised webhook: `event_type`, `resource.id`, and the `custom_id`
      read back from the order the capture belongs to (if that lookup worked). */
  datatype WebhookEvent = WebhookEvent(eventType: string, captureId: Option<string>, customId: Option<string>)

  const CAPTURE_COMPLETED_EVENT := "PAYMENT.CAPTURE.COMPLETED"
  const BOT_START_URL := "https://t.me/CreaVisionBot?start="
  const RETURN_PREFIX := "payment_"
  const CANCEL_PREFIX := "cancel_"

  /** The order sent for a package: the custom_id above and return/cancel
      links that bring the buyer back to the bot with `payment_<id>` or
      `cancel_<id>` as start argument. */
  function OrderRequestFor(userId: int, paymentId: string, packageId: string, p: Package): (req: OrderRequest)
    ensures req.referenceId == paymentId && req.amountCents == p.priceCents && req.currency == p.currency
  {
    OrderRequest(paymentId, CustomId(userId, paymentId, packageId, p.credits), p.currency, p.priceCents,
                 BOT_START_URL + RETURN_PREFIX + paymentId, BOT_START_URL + CANCEL_PREFIX + paymentId)
  }

  /** The webhook reads the buyer, the payment and the credits back from an
      order's `custom_id` exactly when neither id contains a colon. */
  lemma OrderCarriesCustomRef(userId: int, paymentId: string, packageId: string, p: Package)
    ensures ParseCustomId(OrderRequestFor(userId, paymentId, packageId, p).customId)
            == Some(CustomRef(userId, paymentId, p.credits))
            <==> ':' !in paymentId && ':' !in packageId
  {
    CustomIdRoundTrip(userId, paymentId, packageId, p.credits);
  }

  /** The usage description logged for a purchase. */
  function PurchaseDescription(credits: int): string
  {
    "Compra de " + Text.IntToString(credits) + " créditos"
  }

  /** Index of the first link whose `rel` is "approve", or `|links|` if none. */
  function FirstApprove(links: seq<Link>): (k: nat)
    ensures k <= |links|
    ensures k < |links| ==> links[k].rel == Some("approve")
    ensures forall j :: 0 <= j < k ==> links[j].rel != Some("approve")
    decreases |links|
  {
    if links == [] then 0
    else if links[0].rel == Some("approve") then 0
    else 1 + FirstApprove(links[1..])
  }

  /** The checkout URL of an order: the `href` of its first approve link
      (which may itself be missing), or `None` when there is no approve link. */
  function ApproveHref(links: seq<Link>): (checkout: Option<string>)
    ensures checkout.Some? ==>
      exists k :: 0 <= k < |links| && links[k].rel == Some("approve") && links[k].href == checkout
                  && forall j :: 0 <= j < k ==> links[j].rel != Some("approve")
    ensures (forall j :: 0 <= j < |links| ==> links[j].rel != Some("approve")) ==> checkout.None?
  {
    var k := FirstApprove(links);
    if k < |links| then links[k].href else None
  }

  /** The loop that looks for the approve link, stopping at the first one. */
  method FindApproveLink(links: seq<Link>) returns (checkout: Option<string>)
    ensures checkout == ApproveHref(links)
  {
    checkout := None;
    var i := 0;
    while i < |links|
      invariant 0 <= i <= |links|
      invariant forall j :: 0 <= j < i ==> links[j].rel != Some("approve")
      invariant checkout == None
    {
      if links[i].rel == Some("approve") {
        checkout := links[i].href;
        return;
      }
      i := i + 1;
    }
  }

  // ---------------------------------------------------------------------------
  // Operations
  // ---------------------------------------------------------------------------

  /** The ledger after a purchase of `credits` was granted to `userId`. */
  ghost predicate PurchaseCredited(usersBefore: map<int, Database.Account>, usageBefore: seq<Database.UsageRow>,
                                   db: Database.Store, userId: int, credits: int, now: int)
    reads db
  {
    && db.users == Database.Credited(usersBefore, userId, credits)
    && db.usage == usageBefore + [Database.CreditRow(userId, credits, PurchaseDescription(credits), now)]
  }

  /** The order-request half of `create_paypal_payment_link`, for a record
      that has just been created pending: without a token, or when the order
      is rejected, the record stays pending and there is no link; an accepted
      order moves it to `order_created` with whatever order id came back, and
      the link is the first approve link's `href` when that is truthy. */
  method RequestOrder(table: PaymentTable, userId: int, paymentId: string, packageId: string, p: Package, token: bool,
                      createOrder: OrderRequest -> OrderCreation, now: int)
    returns (link: Option<PaymentLink>)
    requires table.Valid() && paymentId in table.records && table.records[paymentId].status == Pending
    modifies table
    ensures table.Valid() && NoRegression(old(table.records), table.records)
    ensures !token ==> link == None && table.records == old(table.records)
    ensures token ==>
      match createOrder(OrderRequestFor(userId, paymentId, packageId, p))
      case OrderRejected =>
        link == None && table.records == old(table.records)
      case OrderAccepted(orderId, links) =>
        table.records == old(table.records)[paymentId :=
          WithStatus(old(table.records)[paymentId], OrderCreated, orderId, None, now)]
        && link == (if Truthy(ApproveHref(links)) then Some(PaymentLink(paymentId, ApproveHref(links).value, orderId))
                    else None)
  {
    if !token {
      return None;
    }
    var response := createOrder(OrderRequestFor(userId, paymentId, packageId, p));
    match response {
      case OrderRejected =>
        return None;
      case OrderAccepted(orderId, links) =>
        table.UpdatePaymentStatus(paymentId, OrderCreated, orderId, None, now);
        var checkout := FindApproveLink(links);
        if Truthy(checkout) {
          link := Some(PaymentLink(paymentId, checkout.value, orderId));
        } else {
          link := None;
        }
    }
  }

  /** `create_paypal_payment_link` without the HTTP: an unknown package fails
      before any record exists; otherwise a pending record is created first,
      then (with a token) the order is requested, and an accepted order moves
      the record to `order_created` with the returned order id even when no
      approve link is found and `None` is returned. */
  method CreatePaypalPaymentLink(table: PaymentTable, userId: int, packageId: string, generated: string,
                                 token: bool, createOrder: OrderRequest -> OrderCreation, now: int)
    returns (link: Option<PaymentLink>)
    requires table.Valid()
    modifies table
    ensures table.Valid() && NoRegression(old(table.records), table.records)
    ensures match FindPackage(packageId)
      case None => link == None && table.records == old(table.records)
      case Some(p) =>
        if generated in old(table.records) then link == None && table.records == old(table.records)
        else
          var created := NewRecord(generated, userId, p, now);
          if !token || generated == "" then link == None && table.records == old(table.records)[generated := created]
          else
            match createOrder(OrderRequestFor(userId, generated, packageId, p))
            case OrderRejected => link == None && table.records == old(table.records)[generated := created]
            case OrderAccepted(orderId, links) =>
              table.records == old(table.records)[generated := WithStatus(created, OrderCreated, orderId, None, now)]
              && link == (if Truthy(ApproveHref(links)) then Some(PaymentLink(generated, ApproveHref(links).value, orderId))
                          else None)
  {
    var package := FindPackage(packageId);
    if package.None? {
      return None;
    }
    ghost var before := table.records;
    var paymentId := table.CreatePaymentRecord(userId, packageId, None, generated, now);
    if paymentId.None? || paymentId.value == "" {
      return None;
    }
    ghost var created := NewRecord(generated, userId, package.value, now);
    assert paymentId.value == generated && table.records == before[generated := created];
    assert NoRegression(before, table.records);
    ghost var mid := table.records;
    link := RequestOrder(table, userId, generated, packageId, package.value, token, createOrder, now);
    NoRegressionTransitive(before, mid, table.records);
  }

  /** `capture_paypal_payment`: a COMPLETED capture of a known payment stores
      the capture id (when there is one), marks the record completed and
      grants the record's credits to the record's user, whatever the status
      was before; anything else returns false and changes nothing. */
  method CapturePaypalPayment(table: PaymentTable, db: Database.Store, paymentId: string, orderId: string,
                              captureOrder: string -> CaptureResponse, now: int) returns (paid: bool)
    requires table.Valid() && db.Valid()
    modifies table, db
    ensures table.Valid() && db.Valid() && NoRegression(old(table.records), table.records)
    ensures db.conversations == old(db.conversations) && db.preferences == old(db.preferences)
    ensures match captureOrder(orderId)
      case CaptureCompleted(captureId) =>
        if paymentId in old(table.records) then
          var r := old(table.records)[paymentId];
          paid
          && table.records == old(table.records)[paymentId := WithStatus(r, Completed, None, captureId, now)]
          && PurchaseCredited(old(db.users), old(db.usage), db, r.userId, r.credits, now)
        else
          !paid && table.records == old(table.records) && db.users == old(db.users) && db.usage == old(db.usage)
      case _ =>
        !paid && table.records == old(table.records) && db.users == old(db.users) && db.usage == old(db.usage)
    ensures paid ==>
      && CompletedOnly(old(table.records), table.records, paymentId)
      && PurchaseCredited(old(db.users), old(db.usage), db, old(table.records)[paymentId].userId,
                          old(table.records)[paymentId].credits, now)
  {
    var response := captureOrder(orderId);
    match response {
      case CaptureCompleted(captureId) =>
        if paymentId in table.records {
          CompletingChangesOnlyThatRecord(table.records, paymentId, captureId, now);
        }
        table.UpdatePaymentStatus(paymentId, Completed, None, captureId, now);
        var info := table.GetPaymentInfo(paymentId);
        if info.None? {
          // `payment_info['user_id']` raises on None; the handler returns False.
          return false;
        }
        var r := info.value;
        db.UpdateUserCredits(r.userId, r.credits, PurchaseDescription(r.credits), now);
        paid := true;
      case _ =>
        paid := false;
    }
  }

  /** When `verify_payment` succeeds: the record exists and has a truthy
      order id, a token was obtained, and PayPal reports the order COMPLETED,
      or APPROVED with a capture that completes. */
  ghost predicate VerifyPays(records: map<string, PaymentRecord>, paymentId: string, token: bool,
                             getOrder: string -> OrderLookup, captureOrder: string -> CaptureResponse)
  {
    && paymentId in records && Truthy(records[paymentId].orderId) && token
    && var orderId := records[paymentId].orderId.value;
       (getOrder(orderId) == OrderCompleted
        || (getOrder(orderId) == OrderApproved && captureOrder(orderId).CaptureCompleted?))
  }

  /** `verify_payment`: a missing record, a record without an order id, a
      missing token, a failed lookup or a status other than COMPLETED or
      APPROVED returns false and changes nothing. COMPLETED marks the record
      completed and grants its credits to its user, with no check of the
      stored status; APPROVED hands over to the capture. */
  method VerifyPayment(table: PaymentTable, db: Database.Store, paymentId: string, token: bool,
                       getOrder: string -> OrderLookup, captureOrder: string -> CaptureResponse, now: int)
    returns (paid: bool)
    requires table.Valid() && db.Valid()
    modifies table, db
    ensures table.Valid() && db.Valid() && NoRegression(old(table.records), table.records)
    ensures db.conversations == old(db.conversations) && db.preferences == old(db.preferences)
    ensures paymentId !in old(table.records) || !Truthy(old(table.records)[paymentId].orderId) || !token ==>
      !paid && table.records == old(table.records) && db.users == old(db.users) && db.usage == old(db.usage)
    ensures paymentId in old(table.records) && Truthy(old(table.records)[paymentId].orderId) && token ==>
      var r := old(table.records)[paymentId];
      var orderId := r.orderId.value;
      match getOrder(orderId)
      case OrderCompleted =>
        paid
        && table.records == old(table.records)[paymentId := WithStatus(r, Completed, None, None, now)]
        && PurchaseCredited(old(db.users), old(db.usage), db, r.userId, r.credits, now)
      case OrderApproved =>
        (match captureOrder(orderId)
         case CaptureCompleted(captureId) =>
           paid
           && table.records == old(table.records)[paymentId := WithStatus(r, Completed, None, captureId, now)]
           && PurchaseCredited(old(db.users), old(db.usage), db, r.userId, r.credits, now)
         case _ =>
           !paid && table.records == old(table.records) && db.users == old(db.users) && db.usage == old(db.usage))
      case _ =>
        !paid && table.records == old(table.records) && db.users == old(db.users) && db.usage == old(db.usage)
    ensures paid ==>
      && CompletedOnly(old(table.records), table.records, paymentId)
      && PurchaseCredited(old(db.users), old(db.usage), db, old(table.records)[paymentId].userId,
                          old(table.records)[paymentId].credits, now)
    ensures !paid ==> table.records == old(table.records) && db.users == old(db.users) && db.usage == old(db.usage)
    ensures paid <==> VerifyPays(old(table.records), paymentId, token, getOrder, captureOrder)
  {
    var info := table.GetPaymentInfo(paymentId);
    if info.None? || !Truthy(info.value.orderId) {
      return false;
    }
    if !token {
      return false;
    }
    var r := info.value;
    var orderId := r.orderId.value;
    var status := getOrder(orderId);
    match status {
      case OrderCompleted =>
        CompletingChangesOnlyThatRecord(table.records, paymentId, None, now);
        table.UpdatePaymentStatus(paymentId, Completed, None, None, now);
        db.UpdateUserCredits(r.userId, r.credits, PurchaseDescription(r.credits), now);
        paid := true;
      case OrderApproved =>
        paid := CapturePaypalPayment(table, db, paymentId, orderId, captureOrder, now);
      case _ =>
        paid := false;
    }
  }

  /** `handle_paypal_webhook`: only a PAYMENT.CAPTURE.COMPLETED event with a
      well-formed custom_id acts. It marks the payment named in the custom_id
      completed (if such a record exists) and grants the custom_id's credits
      to the custom_id's user, without consulting the stored record. */
  method HandlePaypalWebhook(table: PaymentTable, db: Database.Store, event: WebhookEvent, now: int)
    returns (handled: bool)
    requires table.Valid() && db.Valid()
    modifies table, db
    ensures table.Valid() && db.Valid() && NoRegression(old(table.records), table.records)
    ensures db.conversations == old(db.conversations) && db.preferences == old(db.preferences)
    ensures event.eventType != CAPTURE_COMPLETED_EVENT || !Truthy(event.customId)
            || ParseCustomId(event.customId.value).None? ==>
      !handled && table.records == old(table.records) && db.users == old(db.users) && db.usage == old(db.usage)
    ensures event.eventType == CAPTURE_COMPLETED_EVENT && Truthy(event.customId)
            && ParseCustomId(event.customId.value).Some? ==>
      var ref := ParseCustomId(event.customId.value).value;
      handled
      && (ref.paymentId in old(table.records) ==>
            table.records == old(table.records)[ref.paymentId :=
              WithStatus(old(table.records)[ref.paymentId], Completed, None, event.captureId, now)])
      && (ref.paymentId !in old(table.records) ==> table.records == old(table.records))
      && PurchaseCredited(old(db.users), old(db.usage), db, ref.userId, ref.credits, now)
  {
    if event.eventType != CAPTURE_COMPLETED_EVENT || !Truthy(event.customId) {
      return false;
    }
    var parsed := ParseCustomId(event.customId.value);
    if parsed.None? {
      return false;
    }
    var ref := parsed.value;
    table.UpdatePaymentStatus(ref.paymentId, Completed, None, event.captureId, now);
    db.UpdateUserCredits(ref.userId, ref.credits, PurchaseDescription(ref.credits), now);
    handled := true;
  }

  // ---------------------------------------------------------------------------
  // What the operations do not guard against
  // ---------------------------------------------------------------------------

  /** Verifying an order that PayPal reports COMPLETED twice grants its credits
      twice: the second call finds the record already `completed` and credits
      again. */
  method VerifyTwiceCreditsTwice(table: PaymentTable, db: Database.Store, paymentId: string,
                                 getOrder: string -> OrderLookup, captureOrder: string -> CaptureResponse, now: int)
    returns (first: bool, second: bool)
    requires table.Valid() && db.Valid()
    requires paymentId in table.records && Truthy(table.records[paymentId].orderId)
    requires getOrder(table.records[paymentId].orderId.value) == OrderCompleted
    requires table.records[paymentId].userId in db.users
    modifies table, db
    ensures first && second
    ensures paymentId in table.records && table.records[paymentId].status == Completed
    ensures db.users.Keys == old(db.users.Keys)
    ensures var r := old(table.records)[paymentId];
      db.users[r.userId].credits == old(db.users)[r.userId].credits + 2 * r.credits
    ensures var r := old(table.records)[paymentId];
      |db.usage| == |old(db.usage)| + 2 && db.usage[|db.usage| - 1] == db.usage[|db.usage| - 2]
  {
    ghost var r := table.records[paymentId];
    assert FromCatalog(r);
    first := VerifyPayment(table, db, paymentId, true, getOrder, captureOrder, now);
    assert table.records[paymentId].orderId == r.orderId;
    second := VerifyPayment(table, db, paymentId, true, getOrder, captureOrder, now);
  }

  /** The webhook credits whoever the custom_id names, by the amount it names,
      even for a payment id with no record and even after the payment was
      already credited by `verify_payment`. */
  method WebhookAfterVerifyCreditsAgain(table: PaymentTable, db: Database.Store, paymentId: string,
                                        getOrder: string -> OrderLookup, captureOrder: string -> CaptureResponse,
                                        packageId: string, captureId: Option<string>, now: int)
    returns (verified: bool, handled: bool)
    requires table.Valid() && db.Valid()
    requires paymentId in table.records && Truthy(table.records[paymentId].orderId)
    requires getOrder(table.records[paymentId].orderId.value) == OrderCompleted
    requires table.records[paymentId].userId in db.users
    requires ':' !in paymentId && ':' !in packageId
    modifies table, db
    ensures verified && handled
    ensures db.users.Keys == old(db.users.Keys)
    ensures var r := old(table.records)[paymentId];
      db.users[r.userId].credits == old(db.users)[r.userId].credits + 2 * r.credits
  {
    var r := table.records[paymentId];
    assert FromCatalog(r);
    verified := VerifyPayment(table, db, paymentId, true, getOrder, captureOrder, now);
    var customId := CustomId(r.userId, paymentId, packageId, r.credits);
    CustomIdRoundTrip(r.userId, paymentId, packageId, r.credits);
    handled := HandlePaypalWebhook(table, db, WebhookEvent(CAPTURE_COMPLETED_EVENT, captureId, Some(customId)), now);
  }
}
