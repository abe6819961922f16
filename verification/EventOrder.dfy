/**
 How much the order of an order's events matters. The rows they build depend on it only through
 the last event to give a status and the last to give a reason, through what came before the
 order's creation, and through the order of authorisation and refund.
 */
module EventOrder {
  import opened Contracts
  import opened EventStore
  import opened RowFolds
  import P = Projection
  import A = Agreement

  // ------------------------------------------------------------------- events of a real order

  predicate WritesId(m: Message) {
    m.PaymentAuthorized? || m.InventoryReserved? || m.FraudApproved? || m.ShipmentCreated?
  }

  /** Two events write the same into a column. */
  predicate SameWord(a: Envelope, b: Envelope, f: A.Field) {
    A.Writes(a.body, f).Some? && A.Writes(a.body, f) == A.Writes(b.body, f)
  }

  /** Two events write a column that only one kind of event writes. */
  predicate SameColumn(a: Envelope, b: Envelope, f: A.Field) {
    f != A.STATUS && f != A.REASON && A.Writes(a.body, f).Some? && A.Writes(b.body, f).Some?
  }

  /** What the order of events is looked at for: no event repeats, the order is created once,
      and the other events can be told apart by what they write. */
  ghost predicate Telling(es: seq<Envelope>) {
    && NoRepeats(es)
    && (exists c :: c in es && c.body.OrderCreated?)
    && (forall a, b, f :: a in es && b in es && SameWord(a, b, f) ==> a == b)
    && (forall a, b, f :: a in es && b in es && SameColumn(a, b, f) ==> a == b)
    && (forall a, b :: a in es && b in es && a.body.PaymentRefunded? && b.body.PaymentRefunded? ==> a == b)
  }

  ghost predicate Precedes(es: seq<Envelope>, a: Envelope, b: Envelope) {
    exists i, j :: 0 <= i < j < |es| && es[i] == a && es[j] == b
  }

  predicate Created(es: seq<Envelope>) {
    exists i :: 0 <= i < |es| && es[i].body.OrderCreated?
  }

  /** The last event to write a column since the order was created. */
  function Writer(es: seq<Envelope>, f: A.Field): Option<Envelope>
    decreases |es|
  {
    if es == [] then None
    else
      var n := |es| - 1;
      if A.Writes(es[n].body, f).Some? && (es[n].body.OrderCreated? || Created(es[..n])) then Some(es[n])
      else Writer(es[..n], f)
  }

  ghost predicate CreatedOnce(es: seq<Envelope>) {
    forall i, j :: 0 <= i < |es| && 0 <= j < |es| && es[i].body.OrderCreated? && es[j].body.OrderCreated? ==> i == j
  }

  function WrittenBy(e: Option<Envelope>, f: A.Field): Option<A.Value> {
    if e.Some? then A.Writes(e.value.body, f) else None
  }

  lemma CreatedSnoc(es: seq<Envelope>)
    requires es != []
    ensures Created(es) <==> Created(es[..|es| - 1]) || es[|es| - 1].body.OrderCreated?
  {
    var n := |es| - 1;
    if Created(es) {
      var i :| 0 <= i < |es| && es[i].body.OrderCreated?;
      assert i < n ==> es[..n][i] == es[i];
    }
    if Created(es[..n]) {
      var i :| 0 <= i < n && es[..n][i].body.OrderCreated?;
      assert es[i].body.OrderCreated?;
    }
  }

  lemma {:induction false} NoWriterYet(es: seq<Envelope>, f: A.Field)
    requires !Created(es)
    ensures Writer(es, f).None?
    decreases |es|
  {
    hide A.Writes;
    if es == [] {
    } else {
      CreatedSnoc(es);
      NoWriterYet(es[..|es| - 1], f);
    }
  }

  /** The last writer decides the column. */
  lemma {:induction false} WriterDecides(es: seq<Envelope>, f: A.Field)
    requires CreatedOnce(es)
    ensures A.LastValue(A.Bodies(es), f) == if Created(es) then Some(WrittenBy(Writer(es, f), f)) else None
    decreases |es|
  {
    hide A.Writes;
    if es == [] {
    } else {
      var n := |es| - 1;
      CreatedSnoc(es);
      WriterDecides(es[..n], f);
      assert A.Bodies(es)[..n] == A.Bodies(es[..n]);
      if !Created(es[..n]) {
        NoWriterYet(es[..n], f);
      } else {
        var i :| 0 <= i < n && es[..n][i].body.OrderCreated?;
        assert es[i].body.OrderCreated? && !es[n].body.OrderCreated?;
      }
    }
  }

  lemma StatusAndUser(m: Message)
    ensures A.Writes(m, A.STATUS).Some? <==> A.StatusOf(m).Some?
    ensures A.Writes(m, A.USER).Some? <==> m.OrderCreated?
    ensures m.OrderCreated? ==> A.StatusOf(m).Some?
  {
  }

  /** The order's timestamps are those of its creation and of the last event to give a status. */
  lemma {:induction false} WriterStamps(es: seq<Envelope>)
    requires CreatedOnce(es)
    ensures Created(es) ==> Writer(es, A.STATUS).Some? && Writer(es, A.USER).Some?
    ensures OrderStamps(es) ==
            if Created(es) then Some(Stamps(Writer(es, A.USER).value.at, Writer(es, A.STATUS).value.at)) else None
    decreases |es|
  {
    hide A.Writes, A.StatusOf;
    if es == [] {
    } else {
      var n := |es| - 1;
      CreatedSnoc(es);
      WriterStamps(es[..n]);
      StatusAndUser(es[n].body);
      if Created(es[..n]) {
        var i :| 0 <= i < n && es[..n][i].body.OrderCreated?;
        assert es[i].body.OrderCreated? && !es[n].body.OrderCreated?;
      }
    }
  }

  lemma {:induction false} WriterIsWriter(es: seq<Envelope>, f: A.Field)
    ensures Writer(es, f).Some? ==> Writer(es, f).value in es && A.Writes(Writer(es, f).value.body, f).Some?
    decreases |es|
  {
    hide A.Writes;
    if es == [] {
    } else {
      WriterIsWriter(es[..|es| - 1], f);
    }
  }

  lemma TellingIsCreatedOnce(es: seq<Envelope>)
    requires Telling(es)
    ensures CreatedOnce(es) && Created(es)
  {
    hide A.Writes;
    forall i, j | 0 <= i < |es| && 0 <= j < |es| && es[i].body.OrderCreated? && es[j].body.OrderCreated?
      ensures i == j
    {
      StatusAndUser(es[i].body);
      StatusAndUser(es[j].body);
      assert es[i] in es && es[j] in es && SameColumn(es[i], es[j], A.USER);
    }
  }

  lemma ColumnByWriter(hs: seq<Envelope>, gs: seq<Envelope>, f: A.Field)
    requires Telling(hs) && Telling(gs) && forall e :: e in hs <==> e in gs
    ensures A.LastValue(A.Bodies(hs), f) == A.LastValue(A.Bodies(gs), f) <==> Writer(hs, f) == Writer(gs, f)
  {
    hide A.Writes, Writer, A.LastValue, CreatedOnce, Created;
    TellingIsCreatedOnce(hs);
    TellingIsCreatedOnce(gs);
    WriterDecides(hs, f);
    WriterDecides(gs, f);
    WriterIsWriter(hs, f);
    WriterIsWriter(gs, f);
    if Writer(hs, f).Some? && Writer(gs, f).Some? {
      var a, b := Writer(hs, f).value, Writer(gs, f).value;
      assert a in hs && b in hs;
      assert SameWord(a, b, f) ==> a == b;
    }
  }

  /** Columns agree if and only if they have the same last writers. */
  lemma ColumnsByWriters(hs: seq<Envelope>, gs: seq<Envelope>)
    requires Telling(hs) && Telling(gs) && forall e :: e in hs <==> e in gs
    ensures SameColumns(hs, gs) <==> SameWriters(hs, gs)
  {
    hide Writer, A.LastValue, Telling;
    forall f
      ensures A.LastValue(A.Bodies(hs), f) == A.LastValue(A.Bodies(gs), f) <==> Writer(hs, f) == Writer(gs, f)
    {
      ColumnByWriter(hs, gs, f);
    }
  }

  ghost predicate SameWriters(hs: seq<Envelope>, gs: seq<Envelope>) {
    forall f :: Writer(hs, f) == Writer(gs, f)
  }

  lemma {:induction false} NobodyWrites(es: seq<Envelope>, f: A.Field)
    requires forall e :: e in es ==> A.Writes(e.body, f).None?
    ensures Writer(es, f).None?
    decreases |es|
  {
    hide A.Writes;
    if es == [] {
    } else {
      NobodyWrites(es[..|es| - 1], f);
    }
  }

  /** A column with one possible writer holds it if and only if it came after the creation. */
  lemma {:induction false} SoleWriter(es: seq<Envelope>, f: A.Field, x: Envelope)
    requires NoRepeats(es) && x in es && A.Writes(x.body, f).Some? && !x.body.OrderCreated?
    requires forall e :: e in es && A.Writes(e.body, f).Some? ==> e == x
    ensures Writer(es, f) == if CreatedBefore(es, x) then Some(x) else None
    decreases |es|
  {
    hide A.Writes;
    var n := |es| - 1;
    if es[n] == x {
      assert x !in es[..n];
      NobodyWrites(es[..n], f);
      LastComesAfter(es, x);
    } else {
      assert es == es[..n] + [es[n]] && x in es[..n];
      SoleWriter(es[..n], f, x);
      EarlierUnchanged(es, x);
    }
  }

  ghost predicate CreatedBefore(es: seq<Envelope>, x: Envelope) {
    exists i, j :: 0 <= i < j < |es| && es[i].body.OrderCreated? && es[j] == x
  }

  lemma LastComesAfter(es: seq<Envelope>, x: Envelope)
    requires NoRepeats(es) && es != [] && es[|es| - 1] == x
    ensures CreatedBefore(es, x) <==> Created(es[..|es| - 1])
  {
    var n := |es| - 1;
    if CreatedBefore(es, x) {
      var i, j :| 0 <= i < j < |es| && es[i].body.OrderCreated? && es[j] == x;
      assert es[..n][i] == es[i];
    }
    if Created(es[..n]) {
      var i :| 0 <= i < n && es[..n][i].body.OrderCreated?;
      assert es[i].body.OrderCreated? && es[n] == x;
    }
  }

  lemma EarlierUnchanged(es: seq<Envelope>, x: Envelope)
    requires es != [] && es[|es| - 1] != x
    ensures CreatedBefore(es, x) <==> CreatedBefore(es[..|es| - 1], x)
  {
    var n := |es| - 1;
    if CreatedBefore(es, x) {
      var i, j :| 0 <= i < j < |es| && es[i].body.OrderCreated? && es[j] == x;
      assert es[..n][i] == es[i] && es[..n][j] == es[j];
    }
    if CreatedBefore(es[..n], x) {
      var i, j :| 0 <= i < j < n && es[..n][i].body.OrderCreated? && es[..n][j] == x;
      assert es[i].body.OrderCreated? && es[j] == x;
    }
  }

  // --------------------------------------------------------------- the orders that matter

  /** The same event was the last to give a status and the last to give a reason; each event
      that writes an id came after the order's creation in both sequences or in neither; and
      the refund came after its authorisation in both or in neither. */
  ghost predicate SameWhereItMatters(hs: seq<Envelope>, gs: seq<Envelope>) {
    && Writer(hs, A.STATUS) == Writer(gs, A.STATUS)
    && Writer(hs, A.REASON) == Writer(gs, A.REASON)
    && (forall x :: x in hs && WritesId(x.body) ==> (CreatedBefore(hs, x) <==> CreatedBefore(gs, x)))
    && SameRefunds(hs, gs)
  }

  ghost predicate SameRefunds(hs: seq<Envelope>, gs: seq<Envelope>) {
    forall p, r :: p in hs && r in hs && p.body.PaymentAuthorized? && r.body.PaymentRefunded? ==>
      (Precedes(hs, p, r) <==> Precedes(gs, p, r))
  }

  /** The columns that hold an id of a reply. */
  predicate IdColumn(f: A.Field) {
    f in {A.PAYMENT_ID, A.RESERVATION_ID, A.FRAUD_CHECK_ID, A.SHIPMENT_ID, A.TRACKING}
  }

  lemma IdWriters(m: Message, f: A.Field)
    ensures IdColumn(f) && A.Writes(m, f).Some? ==> WritesId(m) && !m.OrderCreated?
    ensures !IdColumn(f) && f != A.STATUS && f != A.REASON ==> (A.Writes(m, f).Some? <==> m.OrderCreated?)
  {
  }

  /** An id column has the same writer in both if that writer came after the creation in both
      or in neither. */
  lemma IdColumnAgrees(hs: seq<Envelope>, gs: seq<Envelope>, f: A.Field, x: Envelope)
    requires Telling(hs) && Telling(gs) && (forall e :: e in hs <==> e in gs)
    requires f != A.STATUS && f != A.REASON && x in hs && A.Writes(x.body, f).Some? && !x.body.OrderCreated?
    ensures Writer(hs, f) == Writer(gs, f) <==> (CreatedBefore(hs, x) <==> CreatedBefore(gs, x))
  {
    hide A.Writes, Writer, CreatedBefore;
    forall e | e in hs && A.Writes(e.body, f).Some?
      ensures e == x
    {
      assert SameColumn(e, x, f);
    }
    SoleWriter(hs, f, x);
    SoleWriter(gs, f, x);
  }

  lemma {:induction false} CreatorIsWriter(es: seq<Envelope>, f: A.Field, c: Envelope)
    requires c in es && c.body.OrderCreated? && A.Writes(c.body, f).Some?
    requires forall e :: e in es && A.Writes(e.body, f).Some? ==> e == c
    ensures Writer(es, f) == Some(c)
    decreases |es|
  {
    hide A.Writes;
    var n := |es| - 1;
    if es[n] == c {
    } else {
      assert es == es[..n] + [es[n]];
      CreatorIsWriter(es[..n], f, c);
    }
  }

  lemma OrderColumnAgrees(hs: seq<Envelope>, gs: seq<Envelope>, f: A.Field)
    requires Telling(hs) && Telling(gs) && (forall e :: e in hs <==> e in gs)
    requires !IdColumn(f) && f != A.STATUS && f != A.REASON
    ensures Writer(hs, f) == Writer(gs, f)
  {
    hide A.Writes, Writer;
    var c :| c in hs && c.body.OrderCreated?;
    IdWriters(c.body, f);
    forall e | e in hs && A.Writes(e.body, f).Some?
      ensures e == c
    {
      assert SameColumn(e, c, f);
    }
    CreatorIsWriter(hs, f, c);
    CreatorIsWriter(gs, f, c);
  }

  lemma NoIdWriters(hs: seq<Envelope>, gs: seq<Envelope>, f: A.Field)
    requires (forall e :: e in hs <==> e in gs) && forall e :: e in hs ==> A.Writes(e.body, f).None?
    ensures Writer(hs, f) == Writer(gs, f)
  {
    hide A.Writes, Writer;
    NobodyWrites(hs, f);
    NobodyWrites(gs, f);
  }

  lemma WritersByOrder(hs: seq<Envelope>, gs: seq<Envelope>)
    requires Telling(hs) && Telling(gs) && (forall e :: e in hs <==> e in gs)
    ensures SameWriters(hs, gs) <==>
            && Writer(hs, A.STATUS) == Writer(gs, A.STATUS) && Writer(hs, A.REASON) == Writer(gs, A.REASON)
            && (forall x :: x in hs && WritesId(x.body) ==> (CreatedBefore(hs, x) <==> CreatedBefore(gs, x)))
  {
    hide A.Writes, Writer, CreatedBefore, Telling, WritesId, IdColumn;
    if SameWriters(hs, gs) {
      forall x | x in hs && WritesId(x.body)
        ensures CreatedBefore(hs, x) <==> CreatedBefore(gs, x)
      {
        var f := ColumnOf(x.body);
        IdColumnAgrees(hs, gs, f, x);
      }
    }
    if && Writer(hs, A.STATUS) == Writer(gs, A.STATUS) && Writer(hs, A.REASON) == Writer(gs, A.REASON)
       && (forall x :: x in hs && WritesId(x.body) ==> (CreatedBefore(hs, x) <==> CreatedBefore(gs, x))) {
      forall f
        ensures Writer(hs, f) == Writer(gs, f)
      {
        if f != A.STATUS && f != A.REASON {
          if !IdColumn(f) {
            OrderColumnAgrees(hs, gs, f);
          } else if x :| x in hs && A.Writes(x.body, f).Some? {
            IdWriters(x.body, f);
            IdColumnAgrees(hs, gs, f, x);
          } else {
            NoIdWriters(hs, gs, f);
          }
        }
      }
    }
  }

  lemma ColumnOf(m: Message) returns (f: A.Field)
    requires WritesId(m)
    ensures f != A.STATUS && f != A.REASON && A.Writes(m, f).Some? && !m.OrderCreated?
  {
    f := if m.PaymentAuthorized? then A.PAYMENT_ID else if m.InventoryReserved? then A.RESERVATION_ID
         else if m.FraudApproved? then A.FRAUD_CHECK_ID else A.SHIPMENT_ID;
  }

  // ------------------------------------------------------------------- payments and shipments

  lemma {:induction false} NoPaymentStamps(es: seq<Envelope>)
    requires forall e :: e in es ==> !e.body.PaymentAuthorized?
    ensures PaymentStamps(es) == map[]
    decreases |es|
  {
    if es == [] {
    } else {
      NoPaymentStamps(es[..|es| - 1]);
    }
  }

  /** The payment at `i`, alone, with no refund after it. */
  lemma {:induction false} OnePaymentStamps(es: seq<Envelope>, i: nat)
    requires A.OnlyPayment(A.Bodies(es), i) && forall j :: i < j < |es| ==> !es[j].body.PaymentRefunded?
    ensures PaymentStamps(es) == map[es[i].body.paymentId := Stamps(es[i].at, es[i].at)]
    decreases |es|
  {
    var n := |es| - 1;
    assert A.Bodies(es)[..n] == A.Bodies(es[..n]);
    assert forall j :: 0 <= j < |es| ==> A.Bodies(es)[j] == es[j].body;
    if i == n {
      NoPaymentStamps(es[..n]);
    } else {
      OnePaymentStamps(es[..n], i);
    }
  }

  /** The payment at `i` and its refund, alone, at `k`. */
  lemma {:induction false} RefundStamps(es: seq<Envelope>, i: nat, k: nat)
    requires A.OnlyPayment(A.Bodies(es), i) && i < k < |es| && es[k].body.PaymentRefunded?
    requires forall j :: 0 <= j < |es| && es[j].body.PaymentRefunded? ==> j == k
    ensures PaymentStamps(es) == map[es[i].body.paymentId := Stamps(es[i].at, es[k].at)]
    decreases |es|
  {
    var n := |es| - 1;
    assert A.Bodies(es)[..n] == A.Bodies(es[..n]) && A.Bodies(es)[n] == es[n].body;
    if k == n {
      OnePaymentStamps(es[..n], i);
    } else {
      RefundStamps(es[..n], i, k);
    }
  }

  lemma SolePayment(es: seq<Envelope>, p: Envelope) returns (i: nat)
    requires Telling(es) && p in es && p.body.PaymentAuthorized?
    ensures i < |es| && es[i] == p && A.OnlyPayment(A.Bodies(es), i)
  {
    hide A.Writes;
    i :| 0 <= i < |es| && es[i] == p;
    forall j | 0 <= j < |es| && es[j].body.PaymentAuthorized?
      ensures j == i
    {
      PaymentColumn(es[j].body);
      PaymentColumn(p.body);
      assert es[j] in es && SameColumn(es[j], p, A.PAYMENT_ID);
    }
  }

  lemma PaymentColumn(m: Message)
    ensures m.PaymentAuthorized? <==> A.Writes(m, A.PAYMENT_ID).Some?
    ensures m.ShipmentCreated? <==> A.Writes(m, A.SHIPMENT_ID).Some?
  {
  }

  /** The payment rows of a telling sequence: unrefunded or refunded, by the order of the two. */
  lemma PaymentRefundedAfter(es: seq<Envelope>, p: Envelope, r: Envelope)
    requires Telling(es) && p in es && p.body.PaymentAuthorized? && r in es && r.body.PaymentRefunded? &&
             Precedes(es, p, r)
    ensures A.LastPayments(A.Bodies(es)) ==
            map[p.body.paymentId := A.NewPayment(p.body).(status := P.REFUNDED, refund := Some(r.body.refundId))]
    ensures PaymentStamps(es) == map[p.body.paymentId := Stamps(p.at, r.at)]
  {
    hide A.Writes, A.LastPayments, PaymentStamps;
    var i := SolePayment(es, p);
    var a, k :| 0 <= a < k < |es| && es[a] == p && es[k] == r;
    assert a == i;
    forall j | 0 <= j < |es| && es[j].body.PaymentRefunded?
      ensures j == k
    {
      assert es[j] in es;
    }
    A.OneRefund(A.Bodies(es), i, k);
    RefundStamps(es, i, k);
  }

  lemma PaymentNotRefunded(es: seq<Envelope>, p: Envelope)
    requires Telling(es) && p in es && p.body.PaymentAuthorized?
    requires forall r :: r in es && r.body.PaymentRefunded? ==> !Precedes(es, p, r)
    ensures A.LastPayments(A.Bodies(es)) == map[p.body.paymentId := A.NewPayment(p.body)]
    ensures PaymentStamps(es) == map[p.body.paymentId := Stamps(p.at, p.at)]
  {
    hide A.Writes, A.LastPayments, PaymentStamps;
    var i := SolePayment(es, p);
    forall j | i < j < |es|
      ensures !es[j].body.PaymentRefunded?
    {
      assert es[j] in es && Precedes(es, es[i], es[j]);
    }
    A.OnePayment(A.Bodies(es), i);
    OnePaymentStamps(es, i);
  }

  lemma PaymentsNever(es: seq<Envelope>)
    requires forall e :: e in es ==> !e.body.PaymentAuthorized?
    ensures A.LastPayments(A.Bodies(es)) == map[] && PaymentStamps(es) == map[]
  {
    hide A.LastPayments, PaymentStamps;
    forall i | 0 <= i < |es|
      ensures !A.Bodies(es)[i].PaymentAuthorized?
    {
      assert es[i] in es;
    }
    A.NoPayments(A.Bodies(es));
    NoPaymentStamps(es);
  }

  /** Payment rows agree if and only if the refund is on the same side of its authorisation. */
  lemma PaymentsByOrder(hs: seq<Envelope>, gs: seq<Envelope>)
    requires Telling(hs) && Telling(gs) && (forall e :: e in hs <==> e in gs)
    ensures A.LastPayments(A.Bodies(hs)) == A.LastPayments(A.Bodies(gs)) <==> SameRefunds(hs, gs)
    ensures SameRefunds(hs, gs) ==> PaymentStamps(hs) == PaymentStamps(gs)
  {
    hide A.LastPayments, PaymentStamps, Precedes, A.NewPayment;
    if p :| p in hs && p.body.PaymentAuthorized? {
      if r :| r in hs && r.body.PaymentRefunded? {
        OneRefundToCompare(hs, gs, p, r);
        PaymentCase(hs, p, r);
        PaymentCase(gs, p, r);
        StatusesDiffer(p, r);
      } else {
        PaymentNotRefunded(hs, p);
        PaymentNotRefunded(gs, p);
      }
    } else {
      PaymentsNever(hs);
      PaymentsNever(gs);
    }
  }

  lemma OneRefundToCompare(hs: seq<Envelope>, gs: seq<Envelope>, p: Envelope, r: Envelope)
    requires Telling(hs) && p in hs && p.body.PaymentAuthorized? && r in hs && r.body.PaymentRefunded?
    ensures SameRefunds(hs, gs) <==> (Precedes(hs, p, r) <==> Precedes(gs, p, r))
  {
    hide A.Writes, Precedes;
    forall q, s | q in hs && s in hs && q.body.PaymentAuthorized? && s.body.PaymentRefunded?
      ensures q == p && s == r
    {
      PaymentColumn(q.body);
      PaymentColumn(p.body);
      assert SameColumn(q, p, A.PAYMENT_ID);
    }
  }

  lemma PaymentCase(es: seq<Envelope>, p: Envelope, r: Envelope)
    requires Telling(es) && p in es && p.body.PaymentAuthorized? && r in es && r.body.PaymentRefunded?
    ensures A.LastPayments(A.Bodies(es)) ==
            map[p.body.paymentId := if Precedes(es, p, r)
                                    then A.NewPayment(p.body).(status := P.REFUNDED, refund := Some(r.body.refundId))
                                    else A.NewPayment(p.body)]
    ensures PaymentStamps(es) == map[p.body.paymentId := Stamps(p.at, if Precedes(es, p, r) then r.at else p.at)]
  {
    hide A.Writes, A.LastPayments, PaymentStamps, Precedes;
    if Precedes(es, p, r) {
      PaymentRefundedAfter(es, p, r);
    } else {
      PaymentNotRefunded(es, p);
    }
  }

  lemma StatusesDiffer(p: Envelope, r: Envelope)
    requires p.body.PaymentAuthorized? && r.body.PaymentRefunded?
    ensures map[p.body.paymentId := A.NewPayment(p.body)] !=
            map[p.body.paymentId := A.NewPayment(p.body).(status := P.REFUNDED, refund := Some(r.body.refundId))]
  {
    var id := p.body.paymentId;
    var a := map[id := A.NewPayment(p.body)];
    var b := map[id := A.NewPayment(p.body).(status := P.REFUNDED, refund := Some(r.body.refundId))];
    assert a[id] != b[id];
  }

  lemma {:induction false} ShipmentStampsOf(es: seq<Envelope>, i: nat)
    requires i <= |es|
    requires forall j :: 0 <= j < |es| && es[j].body.ShipmentCreated? ==> j == i
    ensures ShipmentStamps(es) == if i < |es| && es[i].body.ShipmentCreated?
                                  then map[es[i].body.shipmentId := Stamps(es[i].at, es[i].at)] else map[]
    decreases |es|
  {
    if es == [] {
    } else {
      var n := |es| - 1;
      if i <= n {
        ShipmentStampsOf(es[..n], i);
      } else {
        ShipmentStampsOf(es[..n], n);
      }
    }
  }

  /** Shipment rows never depend on the order. */
  lemma ShipmentRow(es: seq<Envelope>, s: Envelope)
    requires Telling(es) && s in es && s.body.ShipmentCreated?
    ensures A.LastShipments(A.Bodies(es)) == map[s.body.shipmentId := A.Shipment(s.body.tracking, s.body.estimate)]
    ensures ShipmentStamps(es) == map[s.body.shipmentId := Stamps(s.at, s.at)]
  {
    hide A.Writes, A.LastShipments, ShipmentStamps;
    var i :| 0 <= i < |es| && es[i] == s;
    forall j | 0 <= j < |es| && es[j].body.ShipmentCreated?
      ensures j == i
    {
      PaymentColumn(es[j].body);
      PaymentColumn(s.body);
      assert es[j] in es && SameColumn(es[j], s, A.SHIPMENT_ID);
    }
    A.OneShipment(A.Bodies(es), i);
    ShipmentStampsOf(es, i);
  }

  lemma NoShipmentRow(es: seq<Envelope>)
    requires forall e :: e in es ==> !e.body.ShipmentCreated?
    ensures A.LastShipments(A.Bodies(es)) == map[] && ShipmentStamps(es) == map[]
  {
    hide A.LastShipments, ShipmentStamps;
    forall i | 0 <= i < |es|
      ensures !es[i].body.ShipmentCreated? && !A.Bodies(es)[i].ShipmentCreated?
    {
      assert es[i] in es;
    }
    A.NoShipments(A.Bodies(es));
    ShipmentStampsOf(es, |es|);
  }

  lemma ShipmentsAgree(hs: seq<Envelope>, gs: seq<Envelope>)
    requires Telling(hs) && Telling(gs) && (forall e :: e in hs <==> e in gs)
    ensures A.LastShipments(A.Bodies(hs)) == A.LastShipments(A.Bodies(gs)) && ShipmentStamps(hs) == ShipmentStamps(gs)
  {
    hide Telling, A.LastShipments, ShipmentStamps;
    if s :| s in hs && s.body.ShipmentCreated? {
      ShipmentRow(hs, s);
      ShipmentRow(gs, s);
    } else {
      NoShipmentRow(hs);
      NoShipmentRow(gs);
    }
  }

  /** For events of a real order, the folds agree if and only if the orders that matter do. */
  lemma FoldsByOrder(hs: seq<Envelope>, gs: seq<Envelope>)
    requires Telling(hs) && Telling(gs) && (forall e :: e in hs <==> e in gs)
    ensures SameColumns(hs, gs) && SameRows(hs, gs) <==> SameWhereItMatters(hs, gs)
  {
    hide Telling, SameColumns, SameRefunds, Writer, CreatedBefore, A.LastPayments, A.LastShipments, OrderStamps,
         PaymentStamps, ShipmentStamps, WritesId, CreatedOnce, Created;
    ColumnsByWriters(hs, gs);
    WritersByOrder(hs, gs);
    PaymentsByOrder(hs, gs);
    ShipmentsAgree(hs, gs);
    TellingIsCreatedOnce(hs);
    TellingIsCreatedOnce(gs);
    WriterStamps(hs);
    WriterStamps(gs);
  }
}
