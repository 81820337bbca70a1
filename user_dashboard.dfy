/**
 * The non-admin dashboard of frontend/components/UserDashboard_New.tsx:
 * which loaded requests concern the signed-in user (matched by phone), the
 * user's own status and share in each, the pending and paid lists, the
 * pending total, and the payment details handed to the payment popup.
 */
module UserDashboard {
  import opened Wrappers
  import opened Sequences
  import opened PaymentRequestModel

  /** A request as the client receives it, with `createdBy` populated (either field may be missing). */
  datatype RequestView = RequestView(
    title: string, participants: seq<Participant>, creatorPhone: Option<string>, creatorUsername: Option<string>)

  /** `participants.some(p => p.phone === phone)` */
  function HasPhone(ps: seq<Participant>, phone: string): (r: bool)
    ensures r <==> exists i :: 0 <= i < |ps| && ps[i].phone == phone
  {
    if ps == [] then false
    else
      var rest := HasPhone(ps[1..], phone);
      assert forall i :: 1 <= i < |ps| ==> ps[i] == ps[1..][i - 1];
      ps[0].phone == phone || rest
  }

  /** The list kept by `loadPaymentRequests`: requests with a participant holding the user's phone. */
  function ForUser(requests: seq<RequestView>, phone: string): (r: seq<RequestView>)
    ensures forall q :: q in r <==> q in requests && exists i :: 0 <= i < |q.participants| && q.participants[i].phone == phone
  {
    Filter(requests, (q: RequestView) => HasPhone(q.participants, phone))
  }

  /** The kept requests are in the order the server sent them. */
  lemma ForUserKeepsOrder(requests: seq<RequestView>, phone: string)
    ensures Sublist(ForUser(requests, phone), requests)
  {
    FilterIsSublist(requests, (q: RequestView) => HasPhone(q.participants, phone));
  }

  /** `participants.find(p => p.phone === phone)`: the first participant with that phone. */
  function FindByPhone(ps: seq<Participant>, phone: string): (r: Option<Participant>)
    ensures r.None? <==> forall i :: 0 <= i < |ps| ==> ps[i].phone != phone
    ensures r.Some? ==>
      exists i :: 0 <= i < |ps| && ps[i] == r.value && ps[i].phone == phone
        && forall j :: 0 <= j < i ==> ps[j].phone != phone
  {
    if ps == [] then None
    else if ps[0].phone == phone then Some(ps[0])
    else
      var rest := FindByPhone(ps[1..], phone);
      assert forall i :: 1 <= i < |ps| ==> ps[i] == ps[1..][i - 1];
      if rest.Some? then
        assert exists i ::
          1 <= i < |ps| && ps[i] == rest.value && ps[i].phone == phone
          && forall j :: 0 <= j < i ==> ps[j].phone != phone
        by {
          var i :| 0 <= i < |ps[1..]| && ps[1..][i] == rest.value && ps[1..][i].phone == phone
            && forall j :: 0 <= j < i ==> ps[1..][j].phone != phone;
          assert forall j :: 1 <= j < i + 1 ==> ps[j] == ps[1..][j - 1];
        }
        rest
      else
        rest
  }

  /** `getUserParticipantStatus`: the first matching participant's status, pending when nobody matches. */
  function UserStatus(q: RequestView, phone: string): (st: ParticipantStatus)
    ensures (forall i :: 0 <= i < |q.participants| ==> q.participants[i].phone != phone) ==> st == Pending
    ensures forall i ::
      (0 <= i < |q.participants| && q.participants[i].phone == phone
       && forall j :: 0 <= j < i ==> q.participants[j].phone != phone)
      ==> st == q.participants[i].status
  {
    var found := FindByPhone(q.participants, phone);
    if found.Some? then found.value.status else Pending
  }

  /** `getUserAmount`: the first matching participant's amount, 0 when nobody matches. */
  function UserAmount(q: RequestView, phone: string): (amount: int)
    ensures (forall i :: 0 <= i < |q.participants| ==> q.participants[i].phone != phone) ==> amount == 0
    ensures forall i ::
      (0 <= i < |q.participants| && q.participants[i].phone == phone
       && forall j :: 0 <= j < i ==> q.participants[j].phone != phone)
      ==> amount == q.participants[i].amount
  {
    var found := FindByPhone(q.participants, phone);
    if found.Some? then found.value.amount else 0
  }

  function PendingRequests(requests: seq<RequestView>, phone: string): seq<RequestView> {
    Filter(requests, (q: RequestView) => UserStatus(q, phone) == Pending)
  }

  function PaidRequests(requests: seq<RequestView>, phone: string): seq<RequestView> {
    Filter(requests, (q: RequestView) => UserStatus(q, phone) == Paid)
  }

  /**
   * The pending and the paid lists are order-preserving sublists of the
   * loaded requests with no request in both, so together they hold at most
   * all of them; a request whose own status is cancelled is in neither.
   */
  lemma PendingAndPaidPartition(requests: seq<RequestView>, phone: string)
    ensures Sublist(PendingRequests(requests, phone), requests)
    ensures Sublist(PaidRequests(requests, phone), requests)
    ensures forall q :: q in PendingRequests(requests, phone) ==> q !in PaidRequests(requests, phone)
    ensures |PendingRequests(requests, phone)| + |PaidRequests(requests, phone)| <= |requests|
    ensures forall q :: q in requests && UserStatus(q, phone) == ParticipantStatus.Cancelled ==>
      q !in PendingRequests(requests, phone) && q !in PaidRequests(requests, phone)
  {
    FilterIsSublist(requests, (q: RequestView) => UserStatus(q, phone) == Pending);
    FilterIsSublist(requests, (q: RequestView) => UserStatus(q, phone) == Paid);
    FilterDisjointCount(requests, (q: RequestView) => UserStatus(q, phone) == Pending, (q: RequestView) => UserStatus(q, phone) == Paid);
  }

  /** `reduce((sum, r) => sum + getUserAmount(r), 0)` */
  function SumUserAmounts(requests: seq<RequestView>, phone: string): int {
    if requests == [] then 0
    else SumUserAmounts(requests[..|requests| - 1], phone) + UserAmount(requests[|requests| - 1], phone)
  }

  function TotalPending(requests: seq<RequestView>, phone: string): int {
    SumUserAmounts(PendingRequests(requests, phone), phone)
  }

  lemma {:induction false} SumUserAmountsAppend(a: seq<RequestView>, b: seq<RequestView>, phone: string)
    ensures SumUserAmounts(a + b, phone) == SumUserAmounts(a, phone) + SumUserAmounts(b, phone)
    decreases |b|
  {
    if b == [] {
      assert a + b == a;
    } else {
      SumUserAmountsAppend(a, b[..|b| - 1], phone);
      assert (a + b)[..|a + b| - 1] == a + b[..|b| - 1];
    }
  }

  /** One more loaded request adds its share to the pending total exactly when the user's status there is pending. */
  lemma TotalPendingSnoc(requests: seq<RequestView>, q: RequestView, phone: string)
    ensures TotalPending(requests + [q], phone)
      == TotalPending(requests, phone) + (if UserStatus(q, phone) == Pending then UserAmount(q, phone) else 0)
  {
    var f := (r: RequestView) => UserStatus(r, phone) == Pending;
    FilterAppend(requests, [q], f);
    assert Filter([q], f) == if f(q) then [q] else [] by {
      assert [q][..0] == [];
    }
    SumUserAmountsAppend(PendingRequests(requests, phone), Filter([q], f), phone);
    if f(q) {
      assert SumUserAmounts([q], phone) == SumUserAmounts([q][..0], phone) + UserAmount(q, phone);
    }
  }

  /** Shares are at least 1 in every stored request, so the pending total is never negative. */
  lemma {:induction false} TotalPendingNonNegative(requests: seq<RequestView>, phone: string)
    requires forall q :: q in requests ==> AmountsNonNegative(q.participants)
    ensures TotalPending(requests, phone) >= 0
    decreases |requests|
  {
    if requests != [] {
      var init := requests[..|requests| - 1];
      var q := requests[|requests| - 1];
      assert forall r :: r in init ==> r in requests;
      TotalPendingNonNegative(init, phone);
      assert requests == init + [q];
      TotalPendingSnoc(init, q, phone);
    }
  }

  /** What `handlePayment` hands to the payment popup. */
  datatype PaymentInfo = PaymentInfo(adminPhone: string, amount: int, message: string, adminName: string)

  /** The error alert shown instead, as title and message. */
  datatype PaymentAlert = PaymentAlert(title: string, message: string)

  const DefaultAdminPhone := "0123456789"
  const DefaultAdminName := "Admin"

  /** `value || fallback` on an optional string: a missing or empty value falls back. */
  function OrElse(value: Option<string>, fallback: string): (r: string)
    ensures r == fallback || (value.Some? && r == value.value && r != [])
    ensures value.Some? && value.value != [] ==> r == value.value
  {
    if value.Some? && value.value != [] then value.value else fallback
  }

  /**
   * `handlePayment`: an error alert when the user has no share in the
   * request; otherwise the user's share, the creator's phone and name (with
   * fallbacks) and the transfer note `title - username`.
   */
  function HandlePayment(q: RequestView, phone: string, username: string): (r: Result<PaymentInfo, PaymentAlert>)
    ensures r.Failure? <==> forall i :: 0 <= i < |q.participants| ==> q.participants[i].phone != phone
    ensures r.Failure? ==> r.error == PaymentAlert("Lỗi", "Không tìm thấy thông tin thanh toán của bạn")
    ensures r.Success? ==>
      && r.value.amount == UserAmount(q, phone)
      && r.value.message == q.title + " - " + username
      && r.value.adminPhone == OrElse(q.creatorPhone, DefaultAdminPhone)
      && r.value.adminName == OrElse(q.creatorUsername, DefaultAdminName)
  {
    var found := FindByPhone(q.participants, phone);
    if found.None? then Failure(PaymentAlert("Lỗi", "Không tìm thấy thông tin thanh toán của bạn"))
    else Success(PaymentInfo(OrElse(q.creatorPhone, DefaultAdminPhone), found.value.amount,
                             q.title + " - " + username, OrElse(q.creatorUsername, DefaultAdminName)))
  }

  /** A request shown on this dashboard always has a payment to offer. */
  lemma LoadedRequestsArePayable(requests: seq<RequestView>, phone: string, username: string, q: RequestView)
    requires q in ForUser(requests, phone)
    ensures HandlePayment(q, phone, username).Success?
  {
  }
}
