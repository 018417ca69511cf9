/**
 * The bank service's shared definitions: the `Transaction` record with its
 * JSON binding, and the environment lookup with a default.
 *
 * JSON text is not modelled: a payload is the JSON value it parses to, or
 * `Malformed` when it does not parse. Decoding into a `Transaction` follows
 * Go's `encoding/json` rules for a struct: members are applied in document
 * order, a key binds to the field whose tag equals it up to case, a later
 * member overwrites an earlier one, `null` leaves the field as it is, a value
 * of the wrong type leaves the field as it is and records an error (the first
 * such error is the one returned), and unknown keys are skipped. Case is
 * compared on ASCII letters only; Go's Unicode folding agrees with that for
 * the two tags here, since no non-ASCII character folds to a letter of
 * "amount" or "op".
 */
module BankCommon {
  import opened Wrappers
  import opened Text
  import opened Numbers

  /** `Transaction`: a Go `int` amount (64 bits) and an operation name. */
  datatype Transaction = Transaction(amount: Int64, operation: string)

  /** The JSON tags of the two fields. */
  const AmountTag: string := "amount"
  const OperationTag: string := "op"

  /** The zero value, as `&Transaction{}` creates it. */
  const Zero: Transaction := Transaction(0, "")

  /** A parsed JSON value; numbers with a fraction or exponent, booleans and arrays are `JOther`. */
  datatype JsonValue =
    | JNull
    | JNumber(n: int)
    | JString(s: string)
    | JObject(members: seq<(string, JsonValue)>)
    | JOther

  /** An event's data as the decoder sees it: absent, unparsable, or a JSON value. */
  datatype Payload = NoData | Malformed | Json(value: JsonValue)

  /** What `json.Unmarshal` reports: a syntax error, or a value of the wrong type for a field (or for the struct). */
  datatype DecodeError = SyntaxError | TypeError(field: string)

  /** `json.Marshal` of a transaction, as a JSON value: the two tagged members in field order. */
  function Encode(t: Transaction): (v: JsonValue)
    ensures v.JObject? && |v.members| == 2
    ensures v.members[0] == (AmountTag, JNumber(t.amount)) && v.members[1] == (OperationTag, JString(t.operation))
  {
    JObject([(AmountTag, JNumber(t.amount)), (OperationTag, JString(t.operation))])
  }

  /** Go keeps the first decoding error it meets and goes on decoding. */
  function FirstError(kept: Option<DecodeError>, next: Option<DecodeError>): Option<DecodeError> {
    if kept.Some? then kept else next
  }

  /** Stores one member's value in the field it binds to, if any. */
  function Member(t: Transaction, key: string, v: JsonValue): (r: (Transaction, Option<DecodeError>))
    ensures ToLower(key) != AmountTag && ToLower(key) != OperationTag ==> r == (t, None)
    ensures r.0.operation == t.operation || ToLower(key) == OperationTag
    ensures r.0.amount == t.amount || ToLower(key) == AmountTag
  {
    var k := ToLower(key);
    if k == AmountTag then
      match v
      case JNull => (t, None)
      case JNumber(n) =>
        if -0x8000_0000_0000_0000 <= n < 0x8000_0000_0000_0000 then (t.(amount := n), None)
        else (t, Some(TypeError(AmountTag)))
      case _ => (t, Some(TypeError(AmountTag)))
    else if k == OperationTag then
      match v
      case JNull => (t, None)
      case JString(s) => (t.(operation := s), None)
      case _ => (t, Some(TypeError(OperationTag)))
    else (t, None)
  }

  /** Applies the members of an object in order, from `t` with the error kept so far. */
  function Members(t: Transaction, err: Option<DecodeError>, ms: seq<(string, JsonValue)>): (Transaction, Option<DecodeError>)
    decreases |ms|
  {
    if ms == [] then (t, err)
    else
      var step := Member(t, ms[0].0, ms[0].1);
      Members(step.0, FirstError(err, step.1), ms[1..])
  }

  /**
   * `event.DataAs(t)` on a fresh `&Transaction{}`: empty data leaves it alone,
   * unparsable data and a value that is neither an object nor null are errors
   * that also leave it alone, and an object is decoded member by member.
   */
  function Decode(p: Payload): (r: (Transaction, Option<DecodeError>))
    ensures p.Malformed? ==> r == (Zero, Some(SyntaxError))
    ensures p.NoData? || p == Json(JNull) ==> r == (Zero, None)
  {
    match p
    case NoData => (Zero, None)
    case Malformed => (Zero, Some(SyntaxError))
    case Json(v) =>
      match v
      case JNull => (Zero, None)
      case JObject(ms) => Members(Zero, None, ms)
      case _ => (Zero, Some(TypeError("Transaction")))
  }

  /** Decoding what `json.Marshal` writes gives the transaction back, without error. */
  lemma DecodeEncode(t: Transaction)
    ensures Decode(Json(Encode(t))) == (t, None)
  {
    var ms := Encode(t).members;
    assert ToLower(AmountTag) == AmountTag;
    assert ToLower(OperationTag) == OperationTag;
    var t1 := Zero.(amount := t.amount);
    assert Member(Zero, AmountTag, JNumber(t.amount)) == (t1, None);
    assert Member(t1, OperationTag, JString(t.operation)) == (t, None);
    assert ms[1..] == [(OperationTag, JString(t.operation))];
    assert Members(t1, None, ms[1..]) == Members(t, None, ms[1..][1..]) == (t, None);
    assert Members(Zero, None, ms) == Members(t1, None, ms[1..]);
  }

  /** Members are applied in order: decoding a concatenation decodes the second part from where the first left off. */
  lemma {:induction false} MembersAppend(t: Transaction, err: Option<DecodeError>, a: seq<(string, JsonValue)>, b: seq<(string, JsonValue)>)
    ensures Members(t, err, a + b) == Members(Members(t, err, a).0, Members(t, err, a).1, b)
    decreases |a|
  {
    if a == [] {
      assert a + b == b;
    } else {
      var step := Member(t, a[0].0, a[0].1);
      assert (a + b)[0] == a[0];
      assert (a + b)[1..] == a[1..] + b;
      MembersAppend(step.0, FirstError(err, step.1), a[1..], b);
    }
  }

  /** The last occurrence of a key wins: a final in-range "amount" decides the amount, whatever came before. */
  lemma LastAmountWins(ms: seq<(string, JsonValue)>, key: string, n: Int64)
    requires ToLower(key) == AmountTag
    ensures Decode(Json(JObject(ms + [(key, JNumber(n))]))).0.amount == n
    ensures Decode(Json(JObject(ms + [(key, JNumber(n))]))).1 == Decode(Json(JObject(ms))).1
  {
    MembersAppend(Zero, None, ms, [(key, JNumber(n))]);
  }

  /** A wrongly typed member is reported and changes nothing: the field keeps its earlier value. */
  lemma WrongTypeKeepsField(ms: seq<(string, JsonValue)>, key: string, s: string)
    requires ToLower(key) == AmountTag
    ensures Decode(Json(JObject(ms + [(key, JString(s))]))).0 == Decode(Json(JObject(ms))).0
    ensures Decode(Json(JObject(ms + [(key, JString(s))]))).1.Some?
  {
    MembersAppend(Zero, None, ms, [(key, JString(s))]);
  }

  /** Keys bind up to case: spelling every key in upper case decodes the same way. */
  lemma {:induction false} KeysMatchUpToCase(t: Transaction, err: Option<DecodeError>, ms: seq<(string, JsonValue)>)
    ensures Members(t, err, seq(|ms|, i requires 0 <= i < |ms| => (ToUpper(ms[i].0), ms[i].1))) == Members(t, err, ms)
    decreases |ms|
  {
    var up := seq(|ms|, i requires 0 <= i < |ms| => (ToUpper(ms[i].0), ms[i].1));
    if ms != [] {
      ToLowerOfToUpper(ms[0].0);
      var step := Member(t, ms[0].0, ms[0].1);
      assert Member(t, up[0].0, up[0].1) == step;
      var rest := seq(|ms[1..]|, i requires 0 <= i < |ms[1..]| => (ToUpper(ms[1..][i].0), ms[1..][i].1));
      assert up[1..] == rest;
      KeysMatchUpToCase(step.0, FirstError(err, step.1), ms[1..]);
    }
  }

  /** Members with other keys are skipped: they change neither the transaction nor the error. */
  lemma {:induction false} UnknownKeysSkipped(t: Transaction, err: Option<DecodeError>, ms: seq<(string, JsonValue)>)
    requires forall i :: 0 <= i < |ms| ==> ToLower(ms[i].0) != AmountTag && ToLower(ms[i].0) != OperationTag
    ensures Members(t, err, ms) == (t, err)
    decreases |ms|
  {
    if ms != [] {
      UnknownKeysSkipped(t, err, ms[1..]);
    }
  }

  /** `getEnv`: the variable's value when it is set, even to "", the default otherwise. */
  function GetEnv(env: map<string, string>, key: string, defaultValue: string): string {
    if key in env then env[key] else defaultValue
  }

  /**
   * Setting a variable decides the lookup, unsetting it gives the default,
   * and no other variable matters; a variable set to "" is read as "".
   */
  lemma GetEnvLookup(env: map<string, string>, key: string, other: string, v: string, defaultValue: string)
    ensures GetEnv(env[key := v], key, defaultValue) == v
    ensures GetEnv(env - {key}, key, defaultValue) == defaultValue
    ensures other != key ==> GetEnv(env[other := v], key, defaultValue) == GetEnv(env, key, defaultValue)
    ensures GetEnv(env[key := ""], key, defaultValue) == ""
  {
  }

  /** The variables `init` reads and their defaults. */
  const GatewayUrlVar: string := "GATEWAY_URL"
  const DefaultGatewayUrl: string := "http://localhost:8081/"
  const BindAddressVar: string := "BIND_ADDRESS"
  const DefaultBindAddress: string := ":8080"

  /** An empty environment gives the two defaults. */
  lemma DefaultsWhenUnset()
    ensures GetEnv(map[], GatewayUrlVar, DefaultGatewayUrl) == "http://localhost:8081/"
    ensures GetEnv(map[], BindAddressVar, DefaultBindAddress) == ":8080"
  {
  }
}
