/**
 * The bank service: a running balance on a wrapping 32-bit counter, credited
 * or debited by each received transaction, and an audit event carrying the
 * new balance after every transaction.
 */
module Bank {
  import opened Wrappers
  import opened Text
  import opened Numbers
  import opened BankCommon

  /** The change one transaction asks for, in unbounded integers: +amount, -amount or nothing. */
  function Delta(t: Transaction): int {
    if t.operation == "credit" then t.amount
    else if t.operation == "debit" then -(t.amount as int)
    else 0
  }

  /**
   * The balance after one transaction. The amount is a 64-bit `int`: a debit
   * negates it in 64 bits first, the conversion to `int32` keeps the low 32
   * bits, and the atomic add wraps modulo 2^32.
   */
  function Updated(balance: Int32, t: Transaction): Int32 {
    if t.operation == "credit" then Wrap32(balance + Wrap32(t.amount))
    else if t.operation == "debit" then Wrap32(balance + Wrap32(Wrap64(-(t.amount as int))))
    else balance
  }

  /** x and y agree modulo 2^32. */
  predicate Congruent(x: int, y: int) {
    (x - y) % TWO_32 == 0
  }

  lemma CongruentTrans(x: int, y: int, z: int)
    requires Congruent(x, y) && Congruent(y, z)
    ensures Congruent(x, z)
  {
    var p, q := (x - y) / TWO_32, (y - z) / TWO_32;
    assert x - y == p * TWO_32;
    assert y - z == q * TWO_32;
    assert x - z == (p + q) * TWO_32;
  }

  lemma CongruentShift(x: int, y: int, c: int)
    requires Congruent(x, y)
    ensures Congruent(x + c, y + c)
  {
    assert (x + c) - (y + c) == x - y;
  }

  /** A multiple of 2^64 is a multiple of 2^32. */
  lemma Multiple64Is32(d: int)
    requires d % TWO_64 == 0
    ensures d % TWO_32 == 0
  {
    var k := d / TWO_64;
    assert d == k * TWO_64;
    assert d == (k * TWO_32) * TWO_32;
  }

  /** Wrapping to 64 bits does not change a value modulo 2^32, since 2^32 divides 2^64. */
  lemma Wrap64Congruent32(x: int)
    ensures Congruent(Wrap64(x), x)
  {
    Multiple64Is32(Wrap64(x) - x);
  }

  /** Every update is the unbounded change taken modulo 2^32. */
  lemma UpdatedCongruent(balance: Int32, t: Transaction)
    ensures Congruent(Updated(balance, t), balance + Delta(t))
  {
    if t.operation == "credit" {
      CongruentShift(Wrap32(t.amount), t.amount, balance);
      CongruentTrans(Updated(balance, t), balance + Wrap32(t.amount), balance + t.amount);
    } else if t.operation == "debit" {
      Wrap64Congruent32(-(t.amount as int));
      CongruentTrans(Wrap32(Wrap64(-(t.amount as int))), Wrap64(-(t.amount as int)), -(t.amount as int));
      CongruentShift(Wrap32(Wrap64(-(t.amount as int))), -(t.amount as int), balance);
      CongruentTrans(Updated(balance, t), balance + Wrap32(Wrap64(-(t.amount as int))), balance - t.amount as int);
    }
  }

  /** Without overflow a credit adds its amount and a debit subtracts it exactly. */
  lemma UpdatedExact(balance: Int32, t: Transaction)
    requires -0x8000_0000 <= balance + Delta(t) < 0x8000_0000
    requires -0x8000_0000 <= Delta(t) < 0x8000_0000
    ensures Updated(balance, t) == balance + Delta(t)
  {
    UpdatedCongruent(balance, t);
    Wrap32Congruent(Updated(balance, t), balance + Delta(t));
  }

  /** A debit undoes a credit of the same amount, whatever the amount and however far the counter wraps. */
  lemma CreditThenDebit(balance: Int32, amount: Int64)
    ensures Updated(Updated(balance, Transaction(amount, "credit")), Transaction(amount, "debit")) == balance
  {
    var credited := Updated(balance, Transaction(amount, "credit"));
    var debited := Updated(credited, Transaction(amount, "debit"));
    UpdatedCongruent(balance, Transaction(amount, "credit"));
    UpdatedCongruent(credited, Transaction(amount, "debit"));
    CongruentShift(credited, balance + amount, -(amount as int));
    CongruentTrans(debited, credited - amount, balance);
    Wrap32Congruent(debited, balance);
  }

  /** Operations other than "credit" and "debit", the zero transaction among them, leave the balance unchanged. */
  lemma OtherOperationsIgnored(balance: Int32, t: Transaction)
    requires t.operation != "credit" && t.operation != "debit"
    ensures Updated(balance, t) == balance
    ensures Updated(balance, Zero) == balance
  {
  }

  /** A payload that does not decode at all leaves the balance unchanged. */
  lemma UndecodableIgnored(balance: Int32, p: Payload)
    requires p.Malformed? || p.NoData? || (p.Json? && !p.value.JObject?)
    ensures Updated(balance, Decode(p).0) == balance
  {
  }

  /** The balance after a run of transactions, received one after another. */
  function Replay(balance: Int32, ts: seq<Transaction>): Int32
    decreases |ts|
  {
    if ts == [] then balance else Replay(Updated(balance, ts[0]), ts[1..])
  }

  function SumDeltas(ts: seq<Transaction>): int
    decreases |ts|
  {
    if ts == [] then 0 else Delta(ts[0]) + SumDeltas(ts[1..])
  }

  /** The balance is always the sum of all credits minus all debits, modulo 2^32. */
  lemma {:induction false} ReplayIsSumModulo(balance: Int32, ts: seq<Transaction>)
    ensures Congruent(Replay(balance, ts), balance + SumDeltas(ts))
    decreases |ts|
  {
    if ts != [] {
      var next := Updated(balance, ts[0]);
      ReplayIsSumModulo(next, ts[1..]);
      UpdatedCongruent(balance, ts[0]);
      CongruentShift(next, balance + Delta(ts[0]), SumDeltas(ts[1..]));
      CongruentTrans(Replay(next, ts[1..]), next + SumDeltas(ts[1..]), balance + SumDeltas(ts));
    }
  }

  /** The audit event's source, type and content type. */
  const AuditSource: string := "s2sqdemo.bank"
  const AuditType: string := "s2sqdemo:audit"
  const ApplicationJson: string := "application/json"

  /** A CloudEvent as `audit` builds it; the id and time the client adds are not modelled. */
  datatype CloudEvent = CloudEvent(source: string, eventType: string, dataContentType: string, data: map<string, string>)

  /** One send: the event and the target taken from the context. */
  datatype Delivery = Delivery(target: string, event: CloudEvent)

  /** What `audit(e)` hands to the client. */
  function AuditOf(eventGateway: string, e: string): (d: Delivery)
    ensures d.target == eventGateway && d.event.source == AuditSource && d.event.eventType == AuditType
    ensures d.event.data.Keys == {"balance"} && d.event.data["balance"] == e
  {
    Delivery(eventGateway, CloudEvent(AuditSource, AuditType, ApplicationJson, map["balance" := e]))
  }

  /** The audited balance reads back as the balance: `fmt.Sprint` of an `int32` is its decimal rendering. */
  lemma AuditReadsBack(eventGateway: string, balance: Int32)
    ensures ParseInt(AuditOf(eventGateway, IntToString(balance)).event.data["balance"]) == Some(balance as int)
  {
    IntToStringRoundTrip(balance);
  }

  /** The service's package-level state: the two settings read by `init`, the counter and the events sent. */
  class BankService {
    const eventGateway: string
    const address: string
    var balance: Int32
    var sent: seq<Delivery>

    /** `init` over the given environment, with the counter at its zero value. */
    constructor (env: map<string, string>)
      ensures eventGateway == GetEnv(env, GatewayUrlVar, DefaultGatewayUrl)
      ensures address == GetEnv(env, BindAddressVar, DefaultBindAddress)
      ensures balance == 0 && sent == []
    {
      eventGateway := GetEnv(env, GatewayUrlVar, DefaultGatewayUrl);
      address := GetEnv(env, BindAddressVar, DefaultBindAddress);
      balance := 0;
      sent := [];
    }

    /** `audit`: one event with the balance text, sent to the gateway; a failed send is not retried. */
    method Audit(e: string)
      modifies this`sent
      ensures sent == old(sent) + [AuditOf(eventGateway, e)]
    {
      var event := CloudEvent(AuditSource, AuditType, ApplicationJson, map["balance" := e]);
      sent := sent + [Delivery(eventGateway, event)];
    }

    /**
     * `receive`: decode the transaction (a decoding error is only printed),
     * apply it to the counter, and audit the new balance.
     */
    method Receive(p: Payload)
      modifies this`balance, this`sent
      ensures balance == Updated(old(balance), Decode(p).0)
      ensures sent == old(sent) + [AuditOf(eventGateway, IntToString(balance))]
    {
      var decoded := Decode(p);
      var t := decoded.0;
      if t.operation == "credit" {
        balance := Wrap32(balance + Wrap32(t.amount));
      } else if t.operation == "debit" {
        balance := Wrap32(balance + Wrap32(Wrap64(-(t.amount as int))));
      }
      Audit(IntToString(balance));
    }
  }
}
