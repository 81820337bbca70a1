/**
 * The PaymentRequest document of backend/src/models/PaymentRequest.js: its
 * schema constraints and defaults, the `totalPaid` and
 * `completionPercentage` virtuals, the pre-save hook, and the in-place
 * changes the route handlers make to a loaded document.  The database is
 * abstracted away: one object of class PaymentRequest is one document, and
 * `Save` stands for Mongoose's validation followed by the pre-save hook.
 * Time stamps are opaque ticks supplied by the caller.
 */
module PaymentRequestModel {
  import opened Wrappers
  import opened Text
  import opened Arith

  type Tick = nat
  type UserId = string
  /** A participant subdocument's `_id`; the model numbers participants by their position at creation. */
  type ParticipantId = nat

  datatype ParticipantStatus = Pending | Paid | Cancelled

  datatype RequestStatus = Draft | Sent | Completed | Cancelled

  datatype Participant = Participant(
    id: ParticipantId,
    user: UserId,
    name: string,
    phone: string,
    amount: int,
    status: ParticipantStatus,
    paidAt: Option<Tick>,
    momoTransactionId: Option<string>)

  const TitleMaxLength: int := 200
  const DescriptionMaxLength: int := 1000
  const MinAmount: int := 1

  // ------------------------------------------------------------ phone pattern

  /** The character class `[3|5|7|8|9]`, which also admits a literal `|`. */
  predicate PrefixChar(c: char) {
    c == '3' || c == '|' || c == '5' || c == '7' || c == '8' || c == '9'
  }

  /** `s` is one or more repetitions of `0[3|5|7|8|9]`. */
  predicate PrefixUnits(s: string)
    decreases |s|
  {
    |s| >= 2 && s[0] == '0' && PrefixChar(s[1]) && (|s| == 2 || PrefixUnits(s[2..]))
  }

  /** `/^(0[3|5|7|8|9])+([0-9]{8})$/.test(s)`: repeated two-character prefixes, then exactly eight digits. */
  predicate PhoneMatches(s: string) {
    |s| >= 10 && PrefixUnits(s[..|s| - 8]) && AllDigits(s[|s| - 8..])
  }

  /** A ten-digit mobile number `0` + one of 3, 5, 7, 8, 9 + eight digits matches the pattern. */
  lemma MobileNumberMatches(s: string)
    requires |s| == 10 && s[0] == '0' && s[1] in "35789" && AllDigits(s[2..])
    ensures PhoneMatches(s)
  {
    assert s[..2][..2] == s[..2];
    assert s[2..][..] == s[|s| - 8..];
  }

  /** The pattern as written also admits a literal `|` and repeated prefixes, e.g. "0|12345678" and "030312345678". */
  lemma PatternAdmitsMore()
    ensures PhoneMatches("0|12345678")
    ensures PhoneMatches("030312345678")
  {
    assert "0|12345678"[..2] == "0|";
    assert "030312345678"[..4] == "0303";
    assert "0303"[2..] == "03";
  }

  /** Whatever matches has even length, starts with `0` and holds only digits and `|`. */
  lemma {:induction false} PhoneShape(s: string)
    requires PhoneMatches(s)
    ensures |s| % 2 == 0 && s[0] == '0'
    ensures forall i :: 0 <= i < |s| ==> IsDigit(s[i]) || s[i] == '|'
  {
    var p := s[..|s| - 8];
    PrefixUnitsShape(p);
    forall i | 0 <= i < |s| ensures IsDigit(s[i]) || s[i] == '|' {
      if i < |p| {
        assert s[i] == p[i];
      } else {
        assert s[i] == s[|s| - 8..][i - |p|];
      }
    }
  }

  lemma {:induction false} PrefixUnitsShape(p: string)
    requires PrefixUnits(p)
    ensures |p| % 2 == 0 && p[0] == '0'
    ensures forall i :: 0 <= i < |p| ==> IsDigit(p[i]) || p[i] == '|'
    decreases |p|
  {
    if |p| > 2 {
      PrefixUnitsShape(p[2..]);
      forall i | 2 <= i < |p| ensures IsDigit(p[i]) || p[i] == '|' {
        assert p[i] == p[2..][i - 2];
      }
    }
  }

  // ------------------------------------------------------------------ schema

  /** The schema's constraints on one participant subdocument (after trimming the name). */
  predicate ParticipantValid(p: Participant) {
    p.name != [] && PhoneMatches(p.phone) && p.amount >= MinAmount
  }

  /** Mongoose's validation of a whole document: required, maximum lengths, minimums and the phone pattern. */
  predicate SchemaValid(title: string, description: string, totalAmount: int, participants: seq<Participant>) {
    && title != [] && |title| <= TitleMaxLength
    && |description| <= DescriptionMaxLength
    && totalAmount >= MinAmount
    && forall i :: 0 <= i < |participants| ==> ParticipantValid(participants[i])
  }

  /** What the route hands to `new PaymentRequest(...)` for one participant. */
  datatype NewParticipant = NewParticipant(user: UserId, name: string, phone: string, amount: int)

  /** The subdocument Mongoose builds from it: name trimmed, status defaulted to pending. */
  function CastParticipant(q: NewParticipant, position: nat): (p: Participant)
    ensures p.status == Pending && p.paidAt == None && p.momoTransactionId == None
    ensures p.user == q.user && p.phone == q.phone && p.amount == q.amount && p.id == position
    ensures p.name == Trim(q.name)
  {
    Participant(position, q.user, Trim(q.name), q.phone, q.amount, Pending, None, None)
  }

  function CastParticipants(qs: seq<NewParticipant>): (ps: seq<Participant>)
    ensures |ps| == |qs|
    ensures forall i :: 0 <= i < |qs| ==> ps[i] == CastParticipant(qs[i], i)
  {
    seq(|qs|, i requires 0 <= i < |qs| => CastParticipant(qs[i], i))
  }

  // ---------------------------------------------------------------- virtuals

  function SumAmounts(ps: seq<Participant>): int {
    if ps == [] then 0 else SumAmounts(ps[..|ps| - 1]) + ps[|ps| - 1].amount
  }

  /** The `totalPaid` virtual: the amounts of the paid participants, added up. */
  function TotalPaid(ps: seq<Participant>): int {
    if ps == [] then 0
    else TotalPaid(ps[..|ps| - 1]) + (if ps[|ps| - 1].status == Paid then ps[|ps| - 1].amount else 0)
  }

  predicate AmountsNonNegative(ps: seq<Participant>) {
    forall i :: 0 <= i < |ps| ==> ps[i].amount >= 0
  }

  /** With non-negative amounts, the total paid lies between nothing and the sum of all amounts. */
  lemma {:induction false} TotalPaidBounds(ps: seq<Participant>)
    requires AmountsNonNegative(ps)
    ensures 0 <= TotalPaid(ps) <= SumAmounts(ps)
  {
    if ps != [] {
      TotalPaidBounds(ps[..|ps| - 1]);
    }
  }

  /** Once everybody has paid, the total paid is the sum of all amounts. */
  lemma {:induction false} TotalPaidWhenAllPaid(ps: seq<Participant>)
    requires AllPaid(ps)
    ensures TotalPaid(ps) == SumAmounts(ps)
  {
    if ps != [] {
      TotalPaidWhenAllPaid(ps[..|ps| - 1]);
    }
  }

  /** `participants.filter(p => p.status === 'paid').length` */
  function PaidCount(ps: seq<Participant>): (c: nat)
    ensures c <= |ps|
  {
    if ps == [] then 0 else PaidCount(ps[..|ps| - 1]) + (if ps[|ps| - 1].status == Paid then 1 else 0)
  }

  /** `every(p => p.status === 'paid')` */
  predicate AllPaid(ps: seq<Participant>) {
    forall i :: 0 <= i < |ps| ==> ps[i].status == Paid
  }

  lemma {:induction false} PaidCountExtremes(ps: seq<Participant>)
    ensures PaidCount(ps) == |ps| <==> AllPaid(ps)
    ensures PaidCount(ps) == 0 <==> forall i :: 0 <= i < |ps| ==> ps[i].status != Paid
  {
    if ps != [] {
      var init := ps[..|ps| - 1];
      PaidCountExtremes(init);
      assert forall i :: 0 <= i < |init| ==> init[i] == ps[i];
    }
  }

  /** `Math.round(part / whole * 100)`, computed exactly and rounding halves up. */
  function Percentage(part: nat, whole: nat): (r: int)
    requires whole >= 1
  {
    (200 * part + whole) / (2 * whole)
  }

  /** The `completionPercentage` virtual. */
  function CompletionPercentage(ps: seq<Participant>): int {
    if |ps| > 0 then Percentage(PaidCount(ps), |ps|) else 0
  }

  lemma PercentageRange(part: nat, whole: nat)
    requires 1 <= whole && part <= whole
    ensures 0 <= Percentage(part, whole) <= 100
    ensures part == whole ==> Percentage(part, whole) == 100
    ensures part == 0 ==> Percentage(part, whole) == 0
  {
    DivBelow(200 * part + whole, 2 * whole, 101);
    if part == whole {
      DivModUnique(200 * part + whole, 2 * whole, 100, whole);
    }
    if part == 0 {
      DivModUnique(whole, 2 * whole, 0, whole);
    }
  }

  /** The percentage is 0 without participants, lies in [0, 100], is 100 when all have paid and 0 when none has. */
  lemma CompletionPercentageRange(ps: seq<Participant>)
    ensures |ps| == 0 ==> CompletionPercentage(ps) == 0
    ensures 0 <= CompletionPercentage(ps) <= 100
    ensures |ps| > 0 && AllPaid(ps) ==> CompletionPercentage(ps) == 100
    ensures (forall i :: 0 <= i < |ps| ==> ps[i].status != Paid) ==> CompletionPercentage(ps) == 0
  {
    PaidCountExtremes(ps);
    if |ps| > 0 {
      PercentageRange(PaidCount(ps), |ps|);
    }
  }

  /** With 200 or more participants, a single unpaid one still shows as 100 percent. */
  lemma AlmostAllPaidShowsHundred(n: nat)
    requires n >= 200
    ensures Percentage(n - 1, n) == 100
  {
    DivModUnique(200 * (n - 1) + n, 2 * n, 100, n - 200);
  }

  // ------------------------------------------------------------- mark paid

  /** The fields `PUT /:id/pay/:participantId` writes on the participant; an empty transaction id is not recorded. */
  function MarkPaid(p: Participant, now: Tick, momo: Option<string>): (q: Participant)
    ensures q.status == Paid && q.paidAt == Some(now)
    ensures q.momoTransactionId == if momo.Some? && momo.value != [] then momo else p.momoTransactionId
    ensures q.id == p.id && q.user == p.user && q.name == p.name && q.phone == p.phone && q.amount == p.amount
  {
    p.(status := Paid, paidAt := Some(now),
       momoTransactionId := if momo.Some? && momo.value != [] then momo else p.momoTransactionId)
  }

  /** The participant list after participant `k` is marked paid: only entry `k` changes. */
  function MarkAt(ps: seq<Participant>, k: nat, now: Tick, momo: Option<string>): (r: seq<Participant>)
    requires k < |ps|
    ensures |r| == |ps| && r[k] == MarkPaid(ps[k], now, momo)
    ensures forall i :: 0 <= i < |ps| && i != k ==> r[i] == ps[i]
  {
    ps[k := MarkPaid(ps[k], now, momo)]
  }

  /** The request status after a payment: completed once everybody has paid, otherwise as before. */
  function NextStatus(ps: seq<Participant>, st: RequestStatus): (r: RequestStatus)
    ensures AllPaid(ps) ==> r == Completed
    ensures !AllPaid(ps) ==> r == st
  {
    if AllPaid(ps) then Completed else st
  }

  /** After marking `k`, everybody has paid exactly when everybody else had already paid. */
  lemma AllPaidAfterMark(ps: seq<Participant>, k: nat, now: Tick, momo: Option<string>)
    requires k < |ps|
    ensures AllPaid(MarkAt(ps, k, now, momo)) <==> forall i :: 0 <= i < |ps| && i != k ==> ps[i].status == Paid
  {
  }

  /**
   * The request status right after a payment: completed exactly when every
   * other participant had already paid, and otherwise what it was, whether
   * draft, sent or cancelled.
   */
  lemma StatusAfterMark(ps: seq<Participant>, k: nat, st: RequestStatus, now: Tick, momo: Option<string>)
    requires k < |ps|
    ensures NextStatus(MarkAt(ps, k, now, momo), st) ==
      if forall i :: 0 <= i < |ps| && i != k ==> ps[i].status == Paid then Completed else st
  {
    AllPaidAfterMark(ps, k, now, momo);
  }

  /** Marking keeps the schema constraints: it touches no validated field. */
  lemma MarkKeepsValid(ps: seq<Participant>, k: nat, now: Tick, momo: Option<string>)
    requires k < |ps| && forall i :: 0 <= i < |ps| ==> ParticipantValid(ps[i])
    ensures forall i :: 0 <= i < |ps| ==> ParticipantValid(MarkAt(ps, k, now, momo)[i])
  {
  }

  /** Marking two different participants gives the same list in either order. */
  lemma MarksCommute(ps: seq<Participant>, i: nat, j: nat, t1: Tick, t2: Tick, m1: Option<string>, m2: Option<string>)
    requires i < |ps| && j < |ps| && i != j
    ensures MarkAt(MarkAt(ps, i, t1, m1), j, t2, m2) == MarkAt(MarkAt(ps, j, t2, m2), i, t1, m1)
  {
  }

  /**
   * Arrival order does not matter: marking `i` then `j`, or `j` then `i`,
   * leads to the same participants and the same request status.
   */
  lemma TwoPaymentsOrderIndependent(ps: seq<Participant>, st: RequestStatus, i: nat, j: nat,
                                    t1: Tick, t2: Tick, m1: Option<string>, m2: Option<string>)
    requires i < |ps| && j < |ps| && i != j
    ensures var a := MarkAt(ps, i, t1, m1);
            var b := MarkAt(ps, j, t2, m2);
            NextStatus(MarkAt(a, j, t2, m2), NextStatus(a, st)) == NextStatus(MarkAt(b, i, t1, m1), NextStatus(b, st))
  {
    MarksCommute(ps, i, j, t1, t2, m1, m2);
    var a := MarkAt(ps, i, t1, m1);
    var b := MarkAt(ps, j, t2, m2);
    var both := MarkAt(a, j, t2, m2);
    if AllPaid(a) {
      assert AllPaid(both);
    }
    if AllPaid(b) {
      assert AllPaid(MarkAt(b, i, t1, m1));
    }
  }

  /** Marking a participant adds its amount to the total paid unless it had already paid. */
  lemma {:induction false} TotalPaidAfterMark(ps: seq<Participant>, k: nat, now: Tick, momo: Option<string>)
    requires k < |ps|
    ensures TotalPaid(MarkAt(ps, k, now, momo))
      == TotalPaid(ps) + (if ps[k].status == Paid then 0 else ps[k].amount)
  {
    var r := MarkAt(ps, k, now, momo);
    var n := |ps|;
    if k == n - 1 {
      assert r[..n - 1] == ps[..n - 1];
    } else {
      TotalPaidAfterMark(ps[..n - 1], k, now, momo);
      assert r[..n - 1] == MarkAt(ps[..n - 1], k, now, momo);
    }
  }

  // ------------------------------------------------------------ the document

  class PaymentRequest {
    var title: string
    var description: string
    var totalAmount: int
    var createdBy: UserId
    var participants: seq<Participant>
    var status: RequestStatus
    var dueDate: Option<Tick>
    var sentAt: Option<Tick>
    var completedAt: Option<Tick>
    var createdAt: Tick
    var updatedAt: Tick

    /** The document passes the schema's validation. */
    predicate Valid()
      reads this
    {
      SchemaValid(title, description, totalAmount, participants)
    }

    /** `new PaymentRequest({...})`: strings trimmed, status and participant statuses defaulted, both dates `now`. */
    constructor (title: string, description: string, totalAmount: int, createdBy: UserId,
                 newParticipants: seq<NewParticipant>, dueDate: Option<Tick>, now: Tick)
      ensures this.title == Trim(title) && this.description == Trim(description)
      ensures this.totalAmount == totalAmount && this.createdBy == createdBy
      ensures this.participants == CastParticipants(newParticipants)
      ensures this.status == Draft && this.dueDate == dueDate
      ensures this.sentAt == None && this.completedAt == None
      ensures this.createdAt == now && this.updatedAt == now
    {
      this.title := Trim(title);
      this.description := Trim(description);
      this.totalAmount := totalAmount;
      this.createdBy := createdBy;
      this.participants := CastParticipants(newParticipants);
      this.status := Draft;
      this.dueDate := dueDate;
      this.sentAt := None;
      this.completedAt := None;
      this.createdAt := now;
      this.updatedAt := now;
    }

    /**
     * `save()`: validation first; a valid document then gets `updatedAt`
     * refreshed by the pre-save hook and nothing else changes.
     */
    method Save(now: Tick) returns (ok: bool)
      modifies this`updatedAt
      ensures ok == Valid()
      ensures updatedAt == if ok then now else old(updatedAt)
    {
      ok := SchemaValid(title, description, totalAmount, participants);
      if ok {
        updatedAt := now;
      }
    }

    /** The status change of `PUT /:id/send`: only a draft is sent. */
    method Send(now: Tick) returns (sent: bool)
      requires Valid()
      modifies this`status, this`sentAt, this`updatedAt
      ensures Valid()
      ensures sent == (old(status) == Draft)
      ensures sent ==> status == Sent && sentAt == Some(now) && updatedAt == now
      ensures !sent ==> status == old(status) && sentAt == old(sentAt) && updatedAt == old(updatedAt)
    {
      if status != Draft {
        return false;
      }
      status := Sent;
      sentAt := Some(now);
      var ok := Save(now);
      sent := true;
    }

    /**
     * The changes of `PUT /:id/pay/:participantId` once the caller is allowed:
     * participant `k` is paid whatever its previous status and whatever the
     * request's status, and the request is completed once everybody has paid.
     */
    method MarkParticipantPaid(k: nat, momo: Option<string>, now: Tick)
      requires Valid() && k < |participants|
      modifies this`participants, this`status, this`completedAt, this`updatedAt
      ensures Valid()
      ensures participants == MarkAt(old(participants), k, now, momo)
      ensures status == NextStatus(participants, old(status))
      ensures completedAt == if AllPaid(participants) then Some(now) else old(completedAt)
      ensures updatedAt == now
    {
      MarkKeepsValid(participants, k, now, momo);
      participants := participants[k := MarkPaid(participants[k], now, momo)];
      var allPaid := forall i :: 0 <= i < |participants| ==> participants[i].status == Paid;
      if allPaid {
        status := Completed;
        completedAt := Some(now);
      }
      var ok := Save(now);
    }
  }
}
