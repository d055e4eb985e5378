/** Request bodies, what they mean, and the fingerprint that tells a retry from a recycled key
    (app/schemas.py, app/services/idempotency.py). The fingerprint is the canonical JSON text;
    the SHA-256 taken over it is treated as injective. */
module Requests {
  import opened Models
  import opened Money

  /** A parsed request body, before its money field is normalised. */
  datatype RawBody =
    | RawTransfer(source: Uuid, destination: Uuid, amount: Decimal)
    | RawCreate(initialBalance: Decimal)

  /** What a request asks for, in units. */
  datatype Body =
    | Transfer(source: Uuid, destination: Uuid, amount: int)
    | Create(initialBalance: int)

  predicate Accepted(raw: RawBody) {
    match raw
    case RawTransfer(_, _, amount) => IsPositiveMoney(amount)
    case RawCreate(balance) => IsNonNegativeMoney(balance)
  }

  function Meaning(raw: RawBody): Body {
    match raw
    case RawTransfer(s, d, amount) => Transfer(s, d, Units(amount))
    case RawCreate(balance) => Create(Units(balance))
  }

  function OperationOf(body: Body): Operation {
    if body.Transfer? then CreateTransfer else CreateAccount
  }

  predicate SameAccount(body: Body) {
    body.Transfer? && body.source == body.destination
  }

  /** str(uuid): 32 hex digits in groups of 8-4-4-4-12. */
  function UuidText(id: Uuid): (s: string)
    ensures |s| == 36
  {
    var h := Fixed(id, 32, 16);
    h[..8] + "-" + h[8..12] + "-" + h[12..16] + "-" + h[16..20] + "-" + h[20..]
  }

  const TRANSFER_OPEN: string := "{\"amount\":\""
  const TRANSFER_SOURCE: string := "\",\"from_account_id\":\""
  const TRANSFER_DESTINATION: string := "\",\"to_account_id\":\""
  const CREATE_OPEN: string := "{\"initial_balance\":\""
  const CLOSE: string := "\"}"

  /** What follows the amount in a transfer's JSON; its length never varies. */
  function TransferTail(source: Uuid, destination: Uuid): (s: string)
    ensures |s| == |TRANSFER_SOURCE| + 36 + |TRANSFER_DESTINATION| + 36 + |CLOSE|
  {
    TRANSFER_SOURCE + UuidText(source) + TRANSFER_DESTINATION + UuidText(destination) + CLOSE
  }

  /** json.dumps(model_dump, sort_keys=True, separators=(",", ":")) */
  function Fingerprint(raw: RawBody): string {
    match raw
    case RawTransfer(s, d, amount) => TRANSFER_OPEN + Render(amount) + TransferTail(s, d)
    case RawCreate(balance) => CREATE_OPEN + Render(balance) + CLOSE
  }

  lemma UuidTextInjective(a: Uuid, b: Uuid)
    requires UuidText(a) == UuidText(b)
    ensures a == b
  {
    var s, g, h := UuidText(a), Fixed(a, 32, 16), Fixed(b, 32, 16);
    assert s[..8] == g[..8] == h[..8];
    assert s[9..13] == g[8..12] == h[8..12];
    assert s[14..18] == g[12..16] == h[12..16];
    assert s[19..23] == g[16..20] == h[16..20];
    assert s[24..] == g[20..] == h[20..];
    assert g == g[..8] + g[8..12] + g[12..16] + g[16..20] + g[20..];
    assert h == h[..8] + h[8..12] + h[12..16] + h[16..20] + h[20..];
    UuidSpace();
    FixedValue(a, 32, 16);
    FixedValue(b, 32, 16);
  }

  /** The text of a UUID is its 32 hex digits, with dashes in the four places. */
  lemma UuidTextReadsBack(id: Uuid)
    ensures var s := UuidText(id);
            && s[8] == s[13] == s[18] == s[23] == '-'
            && Value(s[..8] + s[9..13] + s[14..18] + s[19..23] + s[24..], 16) == id
  {
    var s, h := UuidText(id), Fixed(id, 32, 16);
    assert s[..8] == h[..8] && s[9..13] == h[8..12] && s[14..18] == h[12..16] && s[19..23] == h[16..20];
    assert s[24..] == h[20..];
    assert h == h[..8] + h[8..12] + h[12..16] + h[16..20] + h[20..];
    UuidSpace();
    FixedValue(id, 32, 16);
  }

  lemma UuidSpace()
    ensures Pow(16, 32) == UUID_SPACE
  {
    assert Pow(16, 8) == 0x1_0000_0000;
    PowAdd(16, 8, 8);
    PowAdd(16, 16, 16);
  }

  lemma TransferTailInjective(s1: Uuid, d1: Uuid, s2: Uuid, d2: Uuid)
    requires TransferTail(s1, d1) == TransferTail(s2, d2)
    ensures s1 == s2 && d1 == d2
  {
    var t := TransferTail(s1, d1);
    var i := |TRANSFER_SOURCE|;
    var j := i + 36 + |TRANSFER_DESTINATION|;
    assert t[i..i + 36] == UuidText(s1) == UuidText(s2);
    assert t[j..j + 36] == UuidText(d1) == UuidText(d2);
    UuidTextInjective(s1, s2);
    UuidTextInjective(d1, d2);
  }

  /** Splits x ++ y at a known distance from the end. */
  lemma SplitAtTail(x1: string, y1: string, x2: string, y2: string)
    requires |y1| == |y2| && x1 + y1 == x2 + y2
    ensures x1 == x2 && y1 == y2
  {
    var s := x1 + y1;
    assert |x1| == |x2|;
    assert s[..|x1|] == x1 && s[..|x2|] == x2;
    assert s[|x1|..] == y1 && s[|x2|..] == y2;
  }

  lemma SameHeadSameRest(head: string, x: string, y: string)
    requires head + x == head + y
    ensures x == y
  {
    assert (head + x)[|head|..] == x && (head + y)[|head|..] == y;
  }

  lemma TransferFingerprints(a: RawBody, b: RawBody)
    requires a.RawTransfer? && b.RawTransfer?
    ensures Fingerprint(a) == Fingerprint(b)
       <==> a.source == b.source && a.destination == b.destination && Render(a.amount) == Render(b.amount)
  {
    if Fingerprint(a) == Fingerprint(b) {
      var t1, t2 := TransferTail(a.source, a.destination), TransferTail(b.source, b.destination);
      SplitAtTail(TRANSFER_OPEN + Render(a.amount), t1, TRANSFER_OPEN + Render(b.amount), t2);
      SameHeadSameRest(TRANSFER_OPEN, Render(a.amount), Render(b.amount));
      TransferTailInjective(a.source, a.destination, b.source, b.destination);
    }
  }

  lemma CreateFingerprints(a: RawBody, b: RawBody)
    requires a.RawCreate? && b.RawCreate?
    ensures Fingerprint(a) == Fingerprint(b) <==> Render(a.initialBalance) == Render(b.initialBalance)
  {
    if Fingerprint(a) == Fingerprint(b) {
      SplitAtTail(CREATE_OPEN + Render(a.initialBalance), CLOSE, CREATE_OPEN + Render(b.initialBalance), CLOSE);
      SameHeadSameRest(CREATE_OPEN, Render(a.initialBalance), Render(b.initialBalance));
    }
  }

  predicate HasMinusSign(raw: RawBody) {
    match raw
    case RawTransfer(_, _, amount) => amount.negative
    case RawCreate(balance) => balance.negative
  }

  /** The fingerprint is a hash of the meaning of the request: two accepted bodies fingerprint
      alike exactly when they ask for the same thing, except that an opening balance of "-0"
      is told apart from "0". */
  lemma FingerprintIsMeaning(a: RawBody, b: RawBody)
    requires Accepted(a) && Accepted(b)
    ensures Fingerprint(a) == Fingerprint(b) <==> Meaning(a) == Meaning(b) && HasMinusSign(a) == HasMinusSign(b)
  {
    match (a, b) {
      case (RawTransfer(_, _, x), RawTransfer(_, _, y)) =>
        TransferFingerprints(a, b);
        RenderInjective(x, y);
      case (RawCreate(x), RawCreate(y)) =>
        CreateFingerprints(a, b);
        RenderInjective(x, y);
      case (RawTransfer(_, _, x), RawCreate(y)) =>
        assert Fingerprint(a)[2] == TRANSFER_OPEN[2] == 'a';
        assert Fingerprint(b)[2] == CREATE_OPEN[2] == 'i';
      case (RawCreate(x), RawTransfer(_, _, y)) =>
        assert Fingerprint(a)[2] == CREATE_OPEN[2] == 'i';
        assert Fingerprint(b)[2] == TRANSFER_OPEN[2] == 'a';
    }
  }

  /** A transfer body is accepted exactly if its amount is, from 0.0001 up; an account body exactly if its
      balance is, from zero up. */
  lemma BodiesAreAcceptedByTheirAmount(raw: RawBody)
    ensures raw.RawTransfer? ==>
              (Accepted(raw) <==> exists n: nat :: 0 < n < Pow(10, 20) && IsUnits(raw.amount, n))
    ensures raw.RawCreate? ==>
              (Accepted(raw) <==> exists n: nat :: n < Pow(10, 20) && IsUnits(raw.initialBalance, n))
  {
    match raw
    case RawTransfer(_, _, amount) => AcceptedByValue(amount);
    case RawCreate(balance) => AcceptedByValue(balance);
  }

  /** A body asks for what its fields say: a transfer between the accounts named, in the direction
      named, of the value written, or an account with the balance written. */
  lemma BodiesMeanWhatTheySay(raw: RawBody)
    requires Accepted(raw)
    ensures raw.RawTransfer? ==>
              && Meaning(raw).Transfer? && Meaning(raw).amount > 0
              && Meaning(raw).source == raw.source && Meaning(raw).destination == raw.destination
              && IsUnits(raw.amount, Meaning(raw).amount)
    ensures raw.RawCreate? ==>
              && Meaning(raw).Create? && Meaning(raw).initialBalance >= 0
              && IsUnits(raw.initialBalance, Meaning(raw).initialBalance)
  {
    match raw
    case RawTransfer(_, _, amount) =>
      UnitsAreExact(amount);
      PositiveUnits(amount);
    case RawCreate(balance) =>
      UnitsAreExact(balance);
  }

  // ---------- Calls ----------

  /** A request as the services see it: the key, the meaning, and the fingerprint taken of it. */
  datatype Call = Call(key: string, body: Body, hash: string)

  /** The call is what the services are handed for an accepted body. */
  predicate SentAs(call: Call, raw: RawBody) {
    Accepted(raw) && call.body == Meaning(raw) && call.hash == Fingerprint(raw)
  }

  ghost predicate Admitted(call: Call) {
    exists raw :: SentAs(call, raw)
  }

  /** What validation leaves of the ranges of money fields. */
  predicate ValidBody(body: Body) {
    match body
    case Transfer(_, _, amount) => 0 < amount <= MAX_MONEY
    case Create(balance) => 0 <= balance <= MAX_MONEY
  }

  lemma AdmittedIsValid(call: Call)
    requires Admitted(call)
    ensures ValidBody(call.body)
  {
    var raw :| SentAs(call, raw);
    if raw.RawTransfer? {
      PositiveUnits(raw.amount);
    }
  }

  lemma PositiveUnits(d: Decimal)
    requires IsPositiveMoney(d)
    ensures Units(d) > 0
  {
    if d.exponent >= -4 {
      PowPositive(10, d.exponent + 4);
    } else {
      PowPositive(10, -4 - d.exponent);
      assert d.coefficient == d.coefficient / Pow(10, -4 - d.exponent) * Pow(10, -4 - d.exponent);
    }
  }

  /** Equal fingerprints can only come from requests for the same thing. */
  lemma SameHashSameBody(a: Call, b: Call)
    requires Admitted(a) && Admitted(b) && a.hash == b.hash
    ensures a.body == b.body
  {
    var x :| SentAs(a, x);
    var y :| SentAs(b, y);
    FingerprintIsMeaning(x, y);
  }
}
