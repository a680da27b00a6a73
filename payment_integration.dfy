/** The Telegram side of purchases (paypal_bot_integration.py): the `/comprar`
    keyboard, the `buy_package_` / `verify_payment_` callbacks, and the
    `/start payment_<id>` / `/start cancel_<id>` deep links PayPal sends the
    buyer back with. Message texts are reduced to the values they show. */
module PaymentIntegration {
  import opened Wrappers
  import Text
  import Database
  import Payments

  const BUY_PREFIX := "buy_package_"
  const VERIFY_PREFIX := "verify_payment_"

  /** Callback data of a package button. */
  function BuyData(packageId: string): (data: string)
    ensures Text.StartsWith(data, BUY_PREFIX) && data[|BUY_PREFIX|..] == packageId
  {
    BUY_PREFIX + packageId
  }

  /** Callback data of a "Verificar Pago" button. */
  function VerifyData(paymentId: string): (data: string)
    ensures Text.StartsWith(data, VERIFY_PREFIX) && data[|VERIFY_PREFIX|..] == paymentId
  {
    VERIFY_PREFIX + paymentId
  }

  // ---------------------------------------------------------------------------
  // Callback data
  // ---------------------------------------------------------------------------

  datatype PaymentCallback = BuyPackage(packageId: string) | VerifyPaymentAction(paymentId: string) | NotPayment

  /** How `handle_payment_callback` reads `query.data`: the `buy_package_`
      test comes first, and the argument is what `replace` leaves once every
      occurrence of the prefix is deleted. */
  function ParsePaymentCallback(data: string): (c: PaymentCallback)
    ensures c.BuyPackage? <==> Text.StartsWith(data, BUY_PREFIX)
    ensures c.VerifyPaymentAction? <==> !Text.StartsWith(data, BUY_PREFIX) && Text.StartsWith(data, VERIFY_PREFIX)
    ensures c.BuyPackage? ==> |c.packageId| <= |data| - |BUY_PREFIX|
    ensures c.VerifyPaymentAction? ==> |c.paymentId| <= |data| - |VERIFY_PREFIX|
  {
    if Text.StartsWith(data, BUY_PREFIX) then
      var rest := Text.RemoveAll(data[|BUY_PREFIX|..], BUY_PREFIX);
      assert data == BUY_PREFIX + data[|BUY_PREFIX|..];
      assert Text.RemoveAll(data, BUY_PREFIX) == rest;
      BuyPackage(Text.RemoveAll(data, BUY_PREFIX))
    else if Text.StartsWith(data, VERIFY_PREFIX) then
      var rest := Text.RemoveAll(data[|VERIFY_PREFIX|..], VERIFY_PREFIX);
      assert Text.RemoveAll(data, VERIFY_PREFIX) == rest;
      VerifyPaymentAction(Text.RemoveAll(data, VERIFY_PREFIX))
    else NotPayment
  }

  /** A package button selects its own package exactly when the id does not
      itself contain `buy_package_`. */
  lemma {:induction false} BuyDataRoundTrip(packageId: string)
    ensures ParsePaymentCallback(BuyData(packageId)) == BuyPackage(packageId)
            <==> !Text.Contains(packageId, BUY_PREFIX)
  {
    Text.RemoveTag(BUY_PREFIX, packageId);
  }

  /** A verify button verifies its own payment exactly when the id does not
      itself contain `verify_payment_`. */
  lemma {:induction false} VerifyDataRoundTrip(paymentId: string)
    ensures ParsePaymentCallback(VerifyData(paymentId)) == VerifyPaymentAction(paymentId)
            <==> !Text.Contains(paymentId, VERIFY_PREFIX)
  {
    Text.RemoveTag(VERIFY_PREFIX, paymentId);
    assert VerifyData(paymentId)[0] == 'v';
  }

  /** The `/comprar` handler: the balance it shows and one button per catalog
      package, in catalog order, whose data is `buy_package_<id>`. */
  method ComprarCommand(db: Database.Store, u: int) returns (balance: int, buttons: seq<string>)
    ensures balance == db.GetUserCredits(u)
    ensures |buttons| == |Payments.PACKAGE_ORDER|
    ensures forall i :: 0 <= i < |buttons| ==> buttons[i] == BuyData(Payments.PACKAGE_ORDER[i])
  {
    buttons := [];
    var i := 0;
    while i < |Payments.PACKAGE_ORDER|
      invariant 0 <= i <= |Payments.PACKAGE_ORDER|
      invariant |buttons| == i
      invariant forall j :: 0 <= j < i ==> buttons[j] == BuyData(Payments.PACKAGE_ORDER[j])
    {
      buttons := buttons + [BuyData(Payments.PACKAGE_ORDER[i])];
      i := i + 1;
    }
    balance := db.GetUserCredits(u);
  }

  /** Every button of the `/comprar` keyboard comes back as the purchase of a
      package the catalog knows, and different buttons name different packages. */
  lemma {:induction false} CatalogButtonsSelectPackages(buttons: seq<string>)
    requires |buttons| == |Payments.PACKAGE_ORDER|
    requires forall i :: 0 <= i < |buttons| ==> buttons[i] == BuyData(Payments.PACKAGE_ORDER[i])
    ensures forall i :: 0 <= i < |buttons| ==>
      ParsePaymentCallback(buttons[i]) == BuyPackage(Payments.PACKAGE_ORDER[i])
      && Payments.FindPackage(Payments.PACKAGE_ORDER[i]).Some?
    ensures forall i, j :: 0 <= i < j < |buttons| ==> ParsePaymentCallback(buttons[i]) != ParsePaymentCallback(buttons[j])
  {
    Payments.CatalogShape();
    forall i | 0 <= i < |buttons|
      ensures ParsePaymentCallback(buttons[i]) == BuyPackage(Payments.PACKAGE_ORDER[i])
    {
      Text.NotContainsByMissingChar(Payments.PACKAGE_ORDER[i], BUY_PREFIX, '_');
      BuyDataRoundTrip(Payments.PACKAGE_ORDER[i]);
    }
  }

  // ---------------------------------------------------------------------------
  // handle_payment_callback
  // ---------------------------------------------------------------------------

  /** What the callback edits the message into. */
  datatype CallbackReply =
    | PaymentOffer(checkoutUrl: string, verifyData: string)   // "Realizar Pago" link and "Verificar Pago" button
    | LinkFailed                                              // error creating the link
    | InvalidPackage                                          // "Paquete no válido"
    | PaymentConfirmed(credits: int)                          // the caller's balance after the purchase
    | PaymentPending(statusBefore: Option<Payments.PaymentStatus>, retryData: string)
    | NoReply                                                 // data with neither prefix

  /** `handle_payment_callback` for the user `u`. A package purchase creates
      the record and order through `create_paypal_payment_link`; a
      verification shows the status read before verifying and, when the
      verification succeeds, the caller's balance. Nothing checks that the
      payment being verified belongs to the caller. */
  method HandlePaymentCallback(table: Payments.PaymentTable, db: Database.Store, u: int, data: string,
                               generated: string, token: bool,
                               createOrder: Payments.OrderRequest -> Payments.OrderCreation,
                               getOrder: string -> Payments.OrderLookup,
                               captureOrder: string -> Payments.CaptureResponse, now: int)
    returns (reply: CallbackReply)
    requires table.Valid() && db.Valid()
    modifies table, db
    ensures table.Valid() && db.Valid() && Payments.NoRegression(old(table.records), table.records)
    ensures db.conversations == old(db.conversations) && db.preferences == old(db.preferences)
    ensures ParsePaymentCallback(data).NotPayment? ==>
      reply == NoReply && table.records == old(table.records) && db.users == old(db.users) && db.usage == old(db.usage)
    ensures ParsePaymentCallback(data).BuyPackage? ==>
      var id := ParsePaymentCallback(data).packageId;
      && db.users == old(db.users) && db.usage == old(db.usage)
      && (Payments.FindPackage(id).None? ==> reply == InvalidPackage && table.records == old(table.records))
      && (Payments.FindPackage(id).Some? ==> reply.PaymentOffer? || reply.LinkFailed?)
      && (table.records != old(table.records) ==>
            generated !in old(table.records) && table.records.Keys == old(table.records).Keys + {generated}
            && table.records[generated].userId == u)
      && (reply.PaymentOffer? ==>
            reply.verifyData == VerifyData(generated) && generated in table.records
            && table.records[generated].status == Payments.OrderCreated
            && table.records[generated].userId == u
            && table.records[generated].credits == Payments.FindPackage(id).value.credits)
    ensures ParsePaymentCallback(data).VerifyPaymentAction? ==>
      var pid := ParsePaymentCallback(data).paymentId;
      && (reply.PaymentConfirmed? <==> Payments.VerifyPays(old(table.records), pid, token, getOrder, captureOrder))
      && (reply.PaymentConfirmed? ==>
            Payments.CompletedOnly(old(table.records), table.records, pid)
            && Payments.PurchaseCredited(old(db.users), old(db.usage), db, old(table.records)[pid].userId,
                                         old(table.records)[pid].credits, now)
            && reply.credits == db.GetUserCredits(u))
      && (!reply.PaymentConfirmed? ==>
            reply == PaymentPending(if pid in old(table.records) then Some(old(table.records)[pid].status) else None,
                                    VerifyData(pid))
            && table.records == old(table.records) && db.users == old(db.users) && db.usage == old(db.usage))
  {
    var callback := ParsePaymentCallback(data);
    match callback {
      case NotPayment =>
        reply := NoReply;
      case BuyPackage(id) =>
        var package := Payments.FindPackage(id);
        if package.None? {
          return InvalidPackage;
        }
        var link := Payments.CreatePaypalPaymentLink(table, u, id, generated, token, createOrder, now);
        if link.Some? {
          reply := PaymentOffer(link.value.checkoutUrl, VerifyData(link.value.paymentId));
        } else {
          reply := LinkFailed;
        }
      case VerifyPaymentAction(pid) =>
        var info := table.GetPaymentInfo(pid);
        var statusBefore := if info.Some? then Some(info.value.status) else None;
        var paid := Payments.VerifyPayment(table, db, pid, token, getOrder, captureOrder, now);
        if paid {
          reply := PaymentConfirmed(db.GetUserCredits(u));
        } else {
          reply := PaymentPending(statusBefore, VerifyData(pid));
        }
    }
  }

  // ---------------------------------------------------------------------------
  // Deep links
  // ---------------------------------------------------------------------------

  /** `/start`'s arguments, read the way `handle_deep_link_start` reads them:
      only the first argument matters, the `payment_` test comes first, and
      the id is what `replace` leaves. */
  datatype StartArg = PaymentArg(paymentId: string) | CancelArg(paymentId: string) | PlainStart

  function ParseStartArgs(args: seq<string>): (a: StartArg)
    ensures a.PaymentArg? <==> |args| > 0 && Text.StartsWith(args[0], Payments.RETURN_PREFIX)
    ensures a.CancelArg? <==>
      |args| > 0 && !Text.StartsWith(args[0], Payments.RETURN_PREFIX) && Text.StartsWith(args[0], Payments.CANCEL_PREFIX)
  {
    if |args| > 0 && Text.StartsWith(args[0], Payments.RETURN_PREFIX) then
      PaymentArg(Text.RemoveAll(args[0], Payments.RETURN_PREFIX))
    else if |args| > 0 && Text.StartsWith(args[0], Payments.CANCEL_PREFIX) then
      CancelArg(Text.RemoveAll(args[0], Payments.CANCEL_PREFIX))
    else PlainStart
  }

  /** The start parameter of an order's return URL comes back as that
      payment's id exactly when the id does not itself contain `payment_`. */
  lemma {:induction false} ReturnArgRoundTrip(paymentId: string)
    ensures ParseStartArgs([Payments.RETURN_PREFIX + paymentId]) == PaymentArg(paymentId)
            <==> !Text.Contains(paymentId, Payments.RETURN_PREFIX)
  {
    Text.RemoveTag(Payments.RETURN_PREFIX, paymentId);
  }

  /** The start parameter of an order's cancel URL comes back as that
      payment's id exactly when the id does not itself contain `cancel_`. */
  lemma {:induction false} CancelArgRoundTrip(paymentId: string)
    ensures ParseStartArgs([Payments.CANCEL_PREFIX + paymentId]) == CancelArg(paymentId)
            <==> !Text.Contains(paymentId, Payments.CANCEL_PREFIX)
  {
    Text.RemoveTag(Payments.CANCEL_PREFIX, paymentId);
    assert (Payments.CANCEL_PREFIX + paymentId)[0] == 'c';
  }

  /** Every id a payment link is built around travels intact through the
      `custom_id`, the return and cancel links and the verify button. */
  lemma {:induction false} PaymentIdSurvivesEveryChannel(userId: int, paymentId: string, packageId: string)
    requires Payments.UuidText(paymentId) && ':' !in packageId
    requires Payments.FindPackage(packageId).Some?
    ensures var p := Payments.FindPackage(packageId).value;
      Payments.ParseCustomId(Payments.OrderRequestFor(userId, paymentId, packageId, p).customId)
        == Some(Payments.CustomRef(userId, paymentId, p.credits))
    ensures ParseStartArgs([Payments.RETURN_PREFIX + paymentId]) == PaymentArg(paymentId)
    ensures ParseStartArgs([Payments.CANCEL_PREFIX + paymentId]) == CancelArg(paymentId)
    ensures ParsePaymentCallback(VerifyData(paymentId)) == VerifyPaymentAction(paymentId)
  {
    assert '_' !in paymentId && ':' !in paymentId;
    var p := Payments.FindPackage(packageId).value;
    Payments.CustomIdRoundTrip(userId, paymentId, packageId, p.credits);
    Text.NotContainsByMissingChar(paymentId, Payments.RETURN_PREFIX, '_');
    ReturnArgRoundTrip(paymentId);
    Text.NotContainsByMissingChar(paymentId, Payments.CANCEL_PREFIX, '_');
    CancelArgRoundTrip(paymentId);
    Text.NotContainsByMissingChar(paymentId, VERIFY_PREFIX, '_');
    VerifyDataRoundTrip(paymentId);
  }

  /** What `handle_deep_link_start` replies. */
  datatype StartReply =
    | StartPaymentConfirmed(credits: int)   // the caller's balance after the purchase
    | StartPaymentPending(retryData: string) // "Verificar de nuevo" button
    | StartCancelled
    | NotDeepLink

  /** `handle_deep_link_start`: `payment_<id>` verifies that payment, `cancel_<id>`
      only acknowledges, and anything else is left to the ordinary start.
      `handled` is the value the function returns to its caller: no branch
      returns anything but `None`, so it is falsy whatever was answered. */
  method HandleDeepLinkStart(table: Payments.PaymentTable, db: Database.Store, u: int, args: seq<string>,
                             token: bool, getOrder: string -> Payments.OrderLookup,
                             captureOrder: string -> Payments.CaptureResponse, now: int)
    returns (reply: StartReply, handled: bool)
    requires table.Valid() && db.Valid()
    modifies table, db
    ensures table.Valid() && db.Valid() && Payments.NoRegression(old(table.records), table.records)
    ensures handled == DeepLinkHandledAsWritten(args)
    ensures db.conversations == old(db.conversations) && db.preferences == old(db.preferences)
    ensures !ParseStartArgs(args).PaymentArg? ==>
      table.records == old(table.records) && db.users == old(db.users) && db.usage == old(db.usage)
    ensures ParseStartArgs(args).CancelArg? ==> reply == StartCancelled
    ensures ParseStartArgs(args).PlainStart? ==> reply == NotDeepLink
    ensures ParseStartArgs(args).PaymentArg? ==>
      var pid := ParseStartArgs(args).paymentId;
      && (reply.StartPaymentConfirmed? <==> Payments.VerifyPays(old(table.records), pid, token, getOrder, captureOrder))
      && (reply.StartPaymentConfirmed? ==>
            Payments.CompletedOnly(old(table.records), table.records, pid)
            && Payments.PurchaseCredited(old(db.users), old(db.usage), db, old(table.records)[pid].userId,
                                         old(table.records)[pid].credits, now)
            && reply.credits == db.GetUserCredits(u))
      && (!reply.StartPaymentConfirmed? ==>
            reply == StartPaymentPending(VerifyData(pid))
            && table.records == old(table.records) && db.users == old(db.users) && db.usage == old(db.usage))
  {
    var arg := ParseStartArgs(args);
    handled := false;
    match arg {
      case PaymentArg(pid) =>
        var paid := Payments.VerifyPayment(table, db, pid, token, getOrder, captureOrder, now);
        if paid {
          reply := StartPaymentConfirmed(db.GetUserCredits(u));
        } else {
          reply := StartPaymentPending(VerifyData(pid));
        }
      case CancelArg(_) =>
        reply := StartCancelled;
      case PlainStart =>
        reply := NotDeepLink;
    }
  }

  /** The value `handle_deep_link_start` hands back to its caller, as written:
      no branch returns anything but `None`, so it is falsy for every argument
      list, payment and cancel links included. */
  function DeepLinkHandledAsWritten(args: seq<string>): (handled: bool)
    ensures !handled
  {
    false
  }

  /** The value the source's comment on the final `return None` implies
      (a plain start is passed on to the ordinary start handler): truthy
      exactly when a deep link was answered. */
  function DeepLinkHandled(args: seq<string>): (handled: bool)
    ensures handled <==> !ParseStartArgs(args).PlainStart?
  {
    ParseStartArgs(args) != PlainStart
  }
}
