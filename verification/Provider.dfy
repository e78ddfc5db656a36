/** The fake payment provider: an idempotency-keyed table of answers. */
module Provider {
  import opened Domain
  import opened Deals
  import opened Text

  datatype Wanted = WantSuccess | WantDecline | WantTimeout

  /** A request as the provider fingerprints it: every field counts. */
  datatype ProviderRequest =
    | Charge(key: string, booking: Id, amount: int, wanted: Wanted)
    | Move(key: string, deposit: Id, kind: OpKind, amount: int, wanted: Wanted)

  datatype Stored = Stored(request: ProviderRequest, result: ProviderResult)

  type Table = map<string, Stored>

  function CommandOf(r: ProviderRequest): string {
    if r.Charge? then "checkout" else "deposit"
  }

  predicate Acceptable(r: ProviderRequest) {
    Trim(r.key) != "" && r.amount > 0
  }

  function Fresh(r: ProviderRequest, digest: string -> string): ProviderResult {
    match r.wanted
    case WantDecline => Declined("FAKE_DECLINED")
    case WantTimeout => TimedOut
    case WantSuccess => Success("fake_" + CommandOf(r) + "_" + digest(CommandOf(r) + ":" + r.key))
  }

  /** What the provider answers to a request over its table. */
  function Reply(t: Table, r: ProviderRequest, digest: string -> string): ProviderCall {
    if !Acceptable(r) then Thrown
    else if r.key in t then if t[r.key].request == r then Answer(t[r.key].result) else Thrown
    else Answer(Fresh(r, digest))
  }

  function Recorded(t: Table, r: ProviderRequest, digest: string -> string): Table {
    if Acceptable(r) && r.key !in t then t[r.key := Stored(r, Fresh(r, digest))] else t
  }

  function RecordedAll(t: Table, rs: seq<ProviderRequest>, digest: string -> string): Table
    decreases |rs|
  {
    if rs == [] then t else RecordedAll(Recorded(t, rs[0], digest), rs[1..], digest)
  }

  class FakeSafeDealProvider {
    var operations: Table
    const digest: string -> string

    constructor (digest: string -> string)
      ensures operations == map[] && this.digest == digest
    {
      operations := map[];
      this.digest := digest;
    }

    method Execute(r: ProviderRequest) returns (call: ProviderCall)
      modifies this
      ensures call == Reply(old(operations), r, digest)
      ensures operations == Recorded(old(operations), r, digest)
    {
      if !Acceptable(r) { return Thrown; }
      if r.key in operations {
        var existing := operations[r.key];
        if existing.request != r { return Thrown; }
        return Answer(existing.result);
      }
      var result := Fresh(r, digest);
      operations := operations[r.key := Stored(r, result)];
      return Answer(result);
    }
  }

  /** Entries of the table are never rewritten. */
  lemma {:induction false} TableGrows(t: Table, rs: seq<ProviderRequest>, digest: string -> string, key: string)
    requires key in t
    ensures key in RecordedAll(t, rs, digest) && RecordedAll(t, rs, digest)[key] == t[key]
    decreases |rs|
  {
    if rs != [] { TableGrows(Recorded(t, rs[0], digest), rs[1..], digest, key); }
  }

  /** A request once answered is answered the same for ever, and asking again records nothing. */
  lemma SameAnswerAgain(t: Table, r: ProviderRequest, rs: seq<ProviderRequest>, digest: string -> string)
    requires Reply(t, r, digest).Answer?
    ensures var reached := RecordedAll(Recorded(t, r, digest), rs, digest);
            Reply(reached, r, digest) == Reply(t, r, digest) && Recorded(reached, r, digest) == reached
  {
    TableGrows(Recorded(t, r, digest), rs, digest, r.key);
  }

  /** A request under a new key is answered as it asks to be, and recorded; blank keys and empty amounts are refused. */
  lemma FirstAnswer(t: Table, r: ProviderRequest, digest: string -> string)
    requires r.key !in t
    ensures if Trim(r.key) == "" || r.amount <= 0 then Reply(t, r, digest) == Thrown && Recorded(t, r, digest) == t
            else
              Reply(t, r, digest).Answer? && var result := Reply(t, r, digest).result;
              Recorded(t, r, digest) == t[r.key := Stored(r, result)] &&
              match r.wanted
              case WantSuccess => result.Success?
              case WantDecline => result.Declined?
              case WantTimeout => result.TimedOut?
  {
  }

  /** A key that was used answers no other request, whatever was asked in between. */
  lemma KeyNotReused(t: Table, r: ProviderRequest, other: ProviderRequest, rs: seq<ProviderRequest>,
      digest: string -> string)
    requires Reply(t, r, digest).Answer? && other.key == r.key && other != r
    ensures Reply(RecordedAll(Recorded(t, r, digest), rs, digest), other, digest) == Thrown
  {
    TableGrows(Recorded(t, r, digest), rs, digest, r.key);
  }

  // ---------------------------------------------------------------- the ids it hands out

  /** Different hashed texts have different digests. */
  ghost predicate Injective(digest: string -> string) {
    forall x, y :: digest(x) == digest(y) ==> x == y
  }

  /** Two requests that differ in command or key are given different operation ids. */
  lemma IdsDistinct(digest: string -> string, q: ProviderRequest, r: ProviderRequest)
    requires Injective(digest) && (CommandOf(q) != CommandOf(r) || q.key != r.key)
    ensures Fresh(q, digest).Success? && Fresh(r, digest).Success? ==> Fresh(q, digest) != Fresh(r, digest)
  {
    var a, b := "fake_" + CommandOf(q) + "_" + digest(CommandOf(q) + ":" + q.key),
        "fake_" + CommandOf(r) + "_" + digest(CommandOf(r) + ":" + r.key);
    if CommandOf(q) != CommandOf(r) {
      assert a[5] != b[5];
    } else {
      var command := CommandOf(q);
      assert command + ":" + q.key != command + ":" + r.key by {
        assert (command + ":" + q.key)[|command| + 1..] == q.key;
        assert (command + ":" + r.key)[|command| + 1..] == r.key;
      }
      assert a[|"fake_" + command + "_"|..] == digest(command + ":" + q.key);
      assert b[|"fake_" + command + "_"|..] == digest(command + ":" + r.key);
    }
  }

  /** Every recorded answer is the fresh one of its request. */
  ghost predicate Answers(table: Table, digest: string -> string) {
    forall key | key in table :: table[key].request.key == key && table[key].result == Fresh(table[key].request, digest)
  }

  lemma {:induction false} AnswersKept(table: Table, asked: seq<ProviderRequest>, digest: string -> string)
    requires Answers(table, digest)
    ensures Answers(RecordedAll(table, asked, digest), digest)
    decreases |asked|
  {
    hide Fresh;
    if asked != [] { AnswersKept(Recorded(table, asked[0], digest), asked[1..], digest); }
  }

  // ---------------------------------------------------------------- what the services ask for

  /** The text of an operation's idempotency key; the deposit's id is part of it. */
  type KeyText = (Id, OpKey) -> string

  /** Different operations have different key texts. */
  ghost predicate Separates(keyText: KeyText) {
    forall b, c, k, l :: keyText(b, k) == keyText(c, l) ==> b == c && k == l
  }

  /** What a worker that claimed an operation of a booking sends. */
  function RequestOf(b: Id, op: Operation, keyText: KeyText): ProviderRequest {
    Move(keyText(b, op.key), b, op.kind, op.amount, WantSuccess)
  }

  /** What a checkout of the booking asks of the provider. */
  function ChargeOf(b: Id, d: Deal, key: string, wanted: Wanted): ProviderRequest {
    Charge(key, b, d.terms.totalMinor, wanted)
  }

  function HoldOf(b: Id, d: Deal, keyText: KeyText): ProviderRequest {
    Move(keyText(b, HoldKey), b, HoldOp, d.terms.depositMinor, WantSuccess)
  }

  /** The checks before the charge. */
  predicate AsksCharge(d: Deal, payer: Id, fakePolicy: bool, key: string) {
    fakePolicy && Trim(key) != "" && d.borrower == payer && d.status == Confirmed && d.terms.fake
  }

  /** A first charge of a booking with a deposit is followed by its hold. */
  predicate AsksHold(d: Deal, checkout: ProviderCall) {
    && checkout.Answer? && checkout.result.Success? && d.payment.None? && d.terms.depositMinor > 0
    && d.deposit.Some? && d.deposit.value.status == Unpaid && d.deposit.value.amount == d.terms.depositMinor
  }

  function AskHold(t: Table, b: Id, d: Deal, checkout: ProviderCall, keyText: KeyText, digest: string -> string):
    (ProviderCall, Table)
  {
    if AsksHold(d, checkout) then
      (Reply(t, HoldOf(b, d, keyText), digest), Recorded(t, HoldOf(b, d, keyText), digest))
    else (Thrown, t)
  }

  /** The provider's two answers to a checkout, and its table afterwards. */
  datatype Asked = Asked(checkout: ProviderCall, hold: ProviderCall, table: Table)

  function AskCheckout(
    t: Table, b: Id, d: Deal, payer: Id, fakePolicy: bool, key: string, wanted: Wanted,
    keyText: KeyText, digest: string -> string): Asked
  {
    if !AsksCharge(d, payer, fakePolicy, key) then Asked(Thrown, Thrown, t)
    else
      var q := ChargeOf(b, d, key, wanted);
      var (hold, after) := AskHold(Recorded(t, q, digest), b, d, Reply(t, q, digest), keyText, digest);
      Asked(Reply(t, q, digest), hold, after)
  }

  /** What a worker makes of the provider's answer; a call that throws counts as a timeout. */
  function Heard(call: ProviderCall): ProviderResult {
    if call.Thrown? then TimedOut else call.result
  }
}
