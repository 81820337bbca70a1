/**
 * The route handlers of backend/src/routes/payments.js over the document
 * model: the create validators and the phone-to-user resolution, the view
 * and list access rules, the pagination arithmetic, `PUT /:id/send`,
 * `PUT /:id/pay/:participantId` and the dashboard statistics.  The
 * database is abstracted: a loaded document is an object or `null` (not
 * found), the user lookup by phone is a map, and the signed-in user is a
 * plain id with an admin flag.
 */
module PaymentRoutes {
  import opened Wrappers
  import opened Text
  import opened Arith
  import opened PaymentRequestModel

  // ------------------------------------------------------------ POST / input

  datatype ParticipantInput = ParticipantInput(name: string, phone: string, amount: int)

  datatype CreateInput = CreateInput(
    title: string, description: string, totalAmount: int,
    participants: seq<ParticipantInput>, dueDate: Option<Tick>)

  /** One failure reported by the express-validator chain, with the participant's index where it has one. */
  datatype ValidationError =
    | TitleEmpty
    | TitleTooLong
    | TotalAmountTooSmall
    | NoParticipants
    | NameEmpty(index: nat)
    | PhoneInvalid(index: nat)
    | AmountTooSmall(index: nat)

  /** Everything the validators of `POST /` demand; nothing ties the amounts to `totalAmount`. */
  predicate InputValid(input: CreateInput) {
    && input.title != [] && |input.title| <= TitleMaxLength
    && input.totalAmount >= MinAmount
    && |input.participants| >= 1
    && forall i :: 0 <= i < |input.participants| ==>
         input.participants[i].name != []
         && PhoneMatches(input.participants[i].phone)
         && input.participants[i].amount >= MinAmount
  }

  /** `participants.*.name` `notEmpty()`, for the participants from position `i` on. */
  function NameErrors(ps: seq<ParticipantInput>, i: nat): (r: seq<ValidationError>)
    requires i <= |ps|
    ensures forall e :: e in r ==> e.NameEmpty?
    ensures r == [] <==> forall j :: i <= j < |ps| ==> ps[j].name != []
    ensures forall j: nat :: NameEmpty(j) in r <==> i <= j < |ps| && ps[j].name == []
    decreases |ps| - i
  {
    if i == |ps| then [] else (if ps[i].name == [] then [NameEmpty(i)] else []) + NameErrors(ps, i + 1)
  }

  /** `participants.*.phone` `matches(...)`, for the participants from position `i` on. */
  function PhoneErrors(ps: seq<ParticipantInput>, i: nat): (r: seq<ValidationError>)
    requires i <= |ps|
    ensures forall e :: e in r ==> e.PhoneInvalid?
    ensures r == [] <==> forall j :: i <= j < |ps| ==> PhoneMatches(ps[j].phone)
    ensures forall j: nat :: PhoneInvalid(j) in r <==> i <= j < |ps| && !PhoneMatches(ps[j].phone)
    decreases |ps| - i
  {
    if i == |ps| then [] else (if !PhoneMatches(ps[i].phone) then [PhoneInvalid(i)] else []) + PhoneErrors(ps, i + 1)
  }

  /** `participants.*.amount` `isFloat({ min: 1 })`, for the participants from position `i` on. */
  function AmountErrors(ps: seq<ParticipantInput>, i: nat): (r: seq<ValidationError>)
    requires i <= |ps|
    ensures forall e :: e in r ==> e.AmountTooSmall?
    ensures r == [] <==> forall j :: i <= j < |ps| ==> ps[j].amount >= MinAmount
    ensures forall j: nat :: AmountTooSmall(j) in r <==> i <= j < |ps| && ps[j].amount < MinAmount
    decreases |ps| - i
  {
    if i == |ps| then [] else (if ps[i].amount < MinAmount then [AmountTooSmall(i)] else []) + AmountErrors(ps, i + 1)
  }

  /** `validationResult(req)`: every failed check, in the order the chains are declared. */
  function Validate(input: CreateInput): (errors: seq<ValidationError>)
    ensures errors == [] <==> InputValid(input)
  {
    var errors := HeadErrors(input) + ParticipantErrors(input.participants);
    errors
  }

  /** The checks on the request's own fields. */
  function HeadErrors(input: CreateInput): (errors: seq<ValidationError>)
    ensures errors == [] <==>
      input.title != [] && |input.title| <= TitleMaxLength
      && input.totalAmount >= MinAmount && input.participants != []
    ensures TitleEmpty in errors <==> input.title == []
    ensures TitleTooLong in errors <==> |input.title| > TitleMaxLength
    ensures TotalAmountTooSmall in errors <==> input.totalAmount < MinAmount
    ensures NoParticipants in errors <==> input.participants == []
    ensures forall e :: e in errors ==> !e.NameEmpty? && !e.PhoneInvalid? && !e.AmountTooSmall?
  {
    (if input.title == [] then [TitleEmpty] else [])
    + (if |input.title| > TitleMaxLength then [TitleTooLong] else [])
    + (if input.totalAmount < MinAmount then [TotalAmountTooSmall] else [])
    + (if input.participants == [] then [NoParticipants] else [])
  }

  /** The checks on each participant, grouped by field as the validator chains are. */
  function ParticipantErrors(ps: seq<ParticipantInput>): (errors: seq<ValidationError>)
    ensures forall e :: e in errors ==> e.NameEmpty? || e.PhoneInvalid? || e.AmountTooSmall?
    ensures errors == [] <==>
      forall j :: 0 <= j < |ps| ==> ps[j].name != [] && PhoneMatches(ps[j].phone) && ps[j].amount >= MinAmount
    ensures forall j: nat :: NameEmpty(j) in errors <==> j < |ps| && ps[j].name == []
    ensures forall j: nat :: PhoneInvalid(j) in errors <==> j < |ps| && !PhoneMatches(ps[j].phone)
    ensures forall j: nat :: AmountTooSmall(j) in errors <==> j < |ps| && ps[j].amount < MinAmount
  {
    NameErrors(ps, 0) + PhoneErrors(ps, 0) + AmountErrors(ps, 0)
  }

  /** The per-participant checks never report an error about the request's own fields. */
  lemma ParticipantErrorsOnlyParticipants(ps: seq<ParticipantInput>)
    ensures TitleEmpty !in ParticipantErrors(ps) && TitleTooLong !in ParticipantErrors(ps)
    ensures TotalAmountTooSmall !in ParticipantErrors(ps) && NoParticipants !in ParticipantErrors(ps)
  {
    var rest := ParticipantErrors(ps);
    assert forall e :: e in rest ==> e.NameEmpty? || e.PhoneInvalid? || e.AmountTooSmall?;
  }

  /** The checks on the request's own fields are reported exactly when they fail. */
  lemma HeadFailuresReported(input: CreateInput)
    ensures TitleEmpty in Validate(input) <==> input.title == []
    ensures TitleTooLong in Validate(input) <==> |input.title| > TitleMaxLength
    ensures TotalAmountTooSmall in Validate(input) <==> input.totalAmount < MinAmount
    ensures NoParticipants in Validate(input) <==> input.participants == []
  {
    ParticipantErrorsOnlyParticipants(input.participants);
    assert Validate(input) == HeadErrors(input) + ParticipantErrors(input.participants);
  }

  /** The checks on participant `j` are reported exactly when they fail. */
  lemma ParticipantFailuresReported(input: CreateInput, j: nat)
    ensures NameEmpty(j) in Validate(input) <==> j < |input.participants| && input.participants[j].name == []
    ensures PhoneInvalid(j) in Validate(input) <==> j < |input.participants| && !PhoneMatches(input.participants[j].phone)
    ensures AmountTooSmall(j) in Validate(input) <==> j < |input.participants| && input.participants[j].amount < MinAmount
  {
    var head, rest := HeadErrors(input), ParticipantErrors(input.participants);
    assert Validate(input) == head + rest;
    assert NameEmpty(j) !in head && PhoneInvalid(j) !in head && AmountTooSmall(j) !in head;
  }

  /** Each check the input fails is reported, and nothing else is. */
  lemma ValidateReportsEachFailure(input: CreateInput)
    ensures TitleEmpty in Validate(input) <==> input.title == []
    ensures TitleTooLong in Validate(input) <==> |input.title| > TitleMaxLength
    ensures TotalAmountTooSmall in Validate(input) <==> input.totalAmount < MinAmount
    ensures NoParticipants in Validate(input) <==> input.participants == []
    ensures forall j: nat ::
      NameEmpty(j) in Validate(input) <==> j < |input.participants| && input.participants[j].name == []
    ensures forall j: nat ::
      PhoneInvalid(j) in Validate(input) <==> j < |input.participants| && !PhoneMatches(input.participants[j].phone)
    ensures forall j: nat ::
      AmountTooSmall(j) in Validate(input) <==> j < |input.participants| && input.participants[j].amount < MinAmount
  {
    HeadFailuresReported(input);
    forall j: nat
      ensures NameEmpty(j) in Validate(input) <==> j < |input.participants| && input.participants[j].name == []
      ensures PhoneInvalid(j) in Validate(input) <==> j < |input.participants| && !PhoneMatches(input.participants[j].phone)
      ensures AmountTooSmall(j) in Validate(input) <==> j < |input.participants| && input.participants[j].amount < MinAmount
    {
      ParticipantFailuresReported(input, j);
    }
  }

  /** The create validators accept requests whose shares do not add up to the total. */
  lemma SumNotChecked()
    ensures var input := CreateInput("Rent", "", 1000, [ParticipantInput("An", "0912345678", 500)], None);
      Validate(input) == [] && input.participants[0].amount != input.totalAmount
  {
    MobileNumberMatches("0912345678");
  }

  // ----------------------------------------------------- participant lookup

  /** Every participant's phone belongs to a registered user. */
  predicate PhonesKnown(inputs: seq<ParticipantInput>, usersByPhone: map<string, UserId>) {
    forall i :: 0 <= i < |inputs| ==> inputs[i].phone in usersByPhone
  }

  /** The participants handed to the new document once every phone has a user. */
  function Resolved(inputs: seq<ParticipantInput>, usersByPhone: map<string, UserId>): (qs: seq<NewParticipant>)
    requires PhonesKnown(inputs, usersByPhone)
    ensures |qs| == |inputs|
    ensures forall i :: 0 <= i < |inputs| ==>
      qs[i].user == usersByPhone[inputs[i].phone] && qs[i].name == inputs[i].name
      && qs[i].phone == inputs[i].phone && qs[i].amount == inputs[i].amount
  {
    seq(|inputs|, i requires 0 <= i < |inputs| =>
      NewParticipant(usersByPhone[inputs[i].phone], inputs[i].name, inputs[i].phone, inputs[i].amount))
  }

  /**
   * The `for…of` loop of `POST /`: each participant's user is found by phone
   * and the name, phone and amount are copied unchanged, in input order; the
   * first phone without a user stops the loop.
   */
  method ResolveParticipants(inputs: seq<ParticipantInput>, usersByPhone: map<string, UserId>)
    returns (r: Result<seq<NewParticipant>, string>)
    ensures r.Failure? <==> !PhonesKnown(inputs, usersByPhone)
    ensures r.Failure? ==>
      exists i :: 0 <= i < |inputs| && inputs[i].phone == r.error
        && r.error !in usersByPhone && forall j :: 0 <= j < i ==> inputs[j].phone in usersByPhone
    ensures r.Success? ==> r.value == Resolved(inputs, usersByPhone)
  {
    var processed: seq<NewParticipant> := [];
    for i := 0 to |inputs|
      invariant |processed| == i
      invariant forall j :: 0 <= j < i ==> inputs[j].phone in usersByPhone
      invariant forall j :: 0 <= j < i ==>
        processed[j] == NewParticipant(usersByPhone[inputs[j].phone], inputs[j].name, inputs[j].phone, inputs[j].amount)
    {
      var participant := inputs[i];
      if participant.phone !in usersByPhone {
        return Failure(participant.phone);
      }
      processed := processed + [NewParticipant(usersByPhone[participant.phone], participant.name,
                                               participant.phone, participant.amount)];
    }
    assert processed == Resolved(inputs, usersByPhone);
    return Success(processed);
  }

  datatype CreateError =
    | ValidationFailed(errors: seq<ValidationError>)
    | UserNotFound(phone: string)
    | ServerError

  /** One participant passes the schema once its name is trimmed. */
  predicate StoredParticipantValid(q: ParticipantInput) {
    Trim(q.name) != [] && PhoneMatches(q.phone) && q.amount >= MinAmount
  }

  /** The stored document passes the schema: the trimmed strings must still be non-empty and short enough. */
  predicate StoredValid(input: CreateInput) {
    && Trim(input.title) != [] && |Trim(input.title)| <= TitleMaxLength
    && |Trim(input.description)| <= DescriptionMaxLength
    && input.totalAmount >= MinAmount
    && forall i :: 0 <= i < |input.participants| ==> StoredParticipantValid(input.participants[i])
  }

  /** A participant cast from an input passes the schema iff the input does once trimmed. */
  lemma CastParticipantValid(q: NewParticipant, position: nat, p: ParticipantInput)
    requires q.name == p.name && q.phone == p.phone && q.amount == p.amount
    ensures ParticipantValid(CastParticipant(q, position)) == StoredParticipantValid(p)
  {
  }

  /** Each resolved participant carries the name, phone and amount of the input at its position. */
  predicate ResolvedFrom(resolved: seq<NewParticipant>, inputs: seq<ParticipantInput>) {
    && |resolved| == |inputs|
    && forall i :: 0 <= i < |resolved| ==>
         resolved[i].name == inputs[i].name && resolved[i].phone == inputs[i].phone
         && resolved[i].amount == inputs[i].amount
  }

  lemma StoredValidIsSchemaValid(input: CreateInput, resolved: seq<NewParticipant>)
    requires ResolvedFrom(resolved, input.participants)
    ensures StoredValid(input) <==>
      SchemaValid(Trim(input.title), Trim(input.description), input.totalAmount, CastParticipants(resolved))
  {
    var ps := CastParticipants(resolved);
    var qs := input.participants;
    if StoredValid(input) {
      forall i | 0 <= i < |ps| ensures ParticipantValid(ps[i]) {
        CastParticipantValid(resolved[i], i, qs[i]);
      }
    }
    if SchemaValid(Trim(input.title), Trim(input.description), input.totalAmount, ps) {
      forall i | 0 <= i < |qs| ensures StoredParticipantValid(qs[i]) {
        CastParticipantValid(resolved[i], i, qs[i]);
      }
    }
  }

  /**
   * `new PaymentRequest({...})` followed by `save()`: the document is kept
   * only when it passes the schema once its strings are trimmed.
   */
  method StoreRequest(input: CreateInput, resolved: seq<NewParticipant>, caller: UserId, now: Tick)
    returns (r: Result<PaymentRequest, CreateError>)
    requires ResolvedFrom(resolved, input.participants)
    ensures r.Success? <==> StoredValid(input)
    ensures r.Failure? ==> r.error == ServerError
    ensures r.Success? ==> fresh(r.value) && r.value.Valid() && NewDocument(r.value, input, resolved, caller, now)
  {
    var doc := new PaymentRequest(input.title, input.description, input.totalAmount, caller,
                                  resolved, input.dueDate, now);
    var schemaValid := SchemaValid(Trim(input.title), Trim(input.description), input.totalAmount,
                                   CastParticipants(resolved));
    assert schemaValid == StoredValid(input) by {
      StoredValidIsSchemaValid(input, resolved);
    }
    var saved := doc.Save(now);
    assert saved == schemaValid;
    if !saved {
      return Failure(ServerError);
    }
    assert NewDocument(doc, input, resolved, caller, now);
    return Success(doc);
  }

  /** The fields of the document `POST /` creates, before anything else happens to it. */
  predicate NewDocument(doc: PaymentRequest, input: CreateInput, resolved: seq<NewParticipant>, caller: UserId, now: Tick)
    reads doc
  {
    && doc.status == Draft && doc.createdBy == caller && doc.totalAmount == input.totalAmount
    && doc.title == Trim(input.title) && doc.description == Trim(input.description)
    && doc.sentAt == None && doc.completedAt == None
    && doc.createdAt == now && doc.updatedAt == now && doc.dueDate == input.dueDate
    && doc.participants == CastParticipants(resolved)
  }

  /**
   * `POST /`: validation, then the lookup of every participant's user, then
   * the new document, which is only kept when it passes the schema on save.
   * Nothing checks that the amounts add up to `totalAmount`.
   */
  method CreatePaymentRequest(input: CreateInput, usersByPhone: map<string, UserId>, caller: UserId, now: Tick)
    returns (r: Result<PaymentRequest, CreateError>)
    ensures Validate(input) != [] ==> r == Failure(ValidationFailed(Validate(input)))
    ensures Validate(input) == [] && !PhonesKnown(input.participants, usersByPhone) ==>
      r.Failure? && r.error.UserNotFound? && r.error.phone !in usersByPhone
    ensures r.Failure? && r.error == ServerError ==> !StoredValid(input)
    ensures r.Success? <==> Validate(input) == [] && PhonesKnown(input.participants, usersByPhone) && StoredValid(input)
    ensures r.Success? ==>
      fresh(r.value) && r.value.Valid()
      && NewDocument(r.value, input, Resolved(input.participants, usersByPhone), caller, now)
  {
    var errors := Validate(input);
    if errors != [] {
      return Failure(ValidationFailed(errors));
    }
    var resolved := ResolveParticipants(input.participants, usersByPhone);
    if resolved.Failure? {
      return Failure(UserNotFound(resolved.error));
    }
    r := StoreRequest(input, resolved.value, caller, now);
  }

  // -------------------------------------------------------- access and lists

  /** `participants.some(p => p.user === caller)` */
  function IsParticipant(ps: seq<Participant>, caller: UserId): (r: bool)
    ensures r <==> exists i :: 0 <= i < |ps| && ps[i].user == caller
  {
    if ps == [] then false
    else ps[0].user == caller || (IsParticipant(ps[1..], caller) && assert forall i :: 1 <= i < |ps| ==> ps[i] == ps[1..][i - 1]; true)
  }

  /** `GET /:id`: an admin, the creator or a participant may see the request. */
  function CanView(isAdmin: bool, caller: UserId, createdBy: UserId, ps: seq<Participant>): (granted: bool)
    ensures granted <==> isAdmin || createdBy == caller || exists i :: 0 <= i < |ps| && ps[i].user == caller
  {
    isAdmin || createdBy == caller || IsParticipant(ps, caller)
  }

  /** The request status as stored, for the `status` query filter. */
  function StatusName(st: RequestStatus): string {
    match st
    case Draft => "draft"
    case Sent => "sent"
    case Completed => "completed"
    case Cancelled => "cancelled"
  }

  /** The query of `GET /` without its text search: non-admins see only requests they take part in. */
  predicate Listed(isAdmin: bool, caller: UserId, statusFilter: string, st: RequestStatus, ps: seq<Participant>) {
    (!isAdmin ==> IsParticipant(ps, caller)) && (statusFilter != [] ==> StatusName(st) == statusFilter)
  }

  /** Whatever the list shows a user, that user may also open. */
  lemma ListedCanView(isAdmin: bool, caller: UserId, statusFilter: string, st: RequestStatus,
                      createdBy: UserId, ps: seq<Participant>)
    requires Listed(isAdmin, caller, statusFilter, st, ps)
    ensures CanView(isAdmin, caller, createdBy, ps)
  {
  }

  /** `pages: Math.ceil(total / limit)` */
  function PageCount(total: nat, limit: int): (pages: nat)
    requires limit >= 1
    ensures total <= pages * limit
    ensures pages >= 1 ==> (pages - 1) * limit < total
    ensures total == 0 <==> pages == 0
  {
    CeilDivBounds(total, limit);
    (total + limit - 1) / limit
  }

  lemma CeilDivBounds(total: nat, limit: int)
    requires limit >= 1
    ensures var pages := (total + limit - 1) / limit;
      && pages >= 0 && total <= pages * limit
      && (pages >= 1 ==> (pages - 1) * limit < total)
      && (total == 0 <==> pages == 0)
  {
    var pages := (total + limit - 1) / limit;
    var rem := (total + limit - 1) % limit;
    assert total + limit - 1 == pages * limit + rem;
    MulDistrib(pages, -1, limit);
    if total == 0 {
      DivModUnique(limit - 1, limit, 0, limit - 1);
    }
  }

  /** `.skip((page - 1) * limit)` */
  function Skip(page: int, limit: int): int {
    (page - 1) * limit
  }

  /** Every one of the `total` matches is on exactly the page `x / limit + 1`, which is among the `PageCount` pages. */
  lemma PagesCoverMatches(total: nat, limit: int, x: nat)
    requires limit >= 1 && x < total
    ensures var page := x / limit + 1;
      1 <= page <= PageCount(total, limit) && Skip(page, limit) <= x < Skip(page, limit) + limit
  {
    var page := x / limit + 1;
    var pages := PageCount(total, limit);
    assert Skip(page, limit) == (x / limit) * limit;
    assert x == (x / limit) * limit + x % limit;
    if page > pages {
      MulMono(pages, page - 1, limit);
      assert false;
    }
  }

  // ------------------------------------------------------------------- send

  /** Sending and paying write only the status fields: what was requested, by whom and when stays as it was. */
  twostate predicate ContentKept(doc: PaymentRequest)
    reads doc
  {
    && doc.title == old(doc.title) && doc.description == old(doc.description)
    && doc.totalAmount == old(doc.totalAmount) && doc.createdBy == old(doc.createdBy)
    && doc.dueDate == old(doc.dueDate) && doc.createdAt == old(doc.createdAt)
  }

  datatype RouteError = RequestNotFound | ParticipantNotFound | AccessDenied | AlreadySent

  /** `PUT /:id/send`: a missing request is not found; anything but a draft is refused and left as it is. */
  method SendPaymentRequest(doc: PaymentRequest?, now: Tick) returns (r: Outcome<RouteError>)
    requires doc != null ==> doc.Valid()
    modifies doc
    ensures doc != null ==> ContentKept(doc)
    ensures doc == null ==> r == Fail(RequestNotFound)
    ensures doc != null ==> doc.Valid()
    ensures doc != null && old(doc.status) != Draft ==> r == Fail(AlreadySent) && unchanged(doc)
    ensures doc != null && old(doc.status) == Draft ==>
      r == Pass
      && doc.status == Sent && doc.sentAt == Some(now) && doc.updatedAt == now
      && doc.participants == old(doc.participants) && doc.completedAt == old(doc.completedAt)
  {
    if doc == null {
      return Fail(RequestNotFound);
    }
    var sent := doc.Send(now);
    if !sent {
      return Fail(AlreadySent);
    }
    return Pass;
  }

  // -------------------------------------------------------------------- pay

  /** `participants.id(participantId)`: the position of the participant with that id. */
  function FindParticipant(ps: seq<Participant>, pid: ParticipantId): (r: Option<nat>)
    ensures r.Some? ==> r.value < |ps| && ps[r.value].id == pid
    ensures r.None? <==> forall i :: 0 <= i < |ps| ==> ps[i].id != pid
  {
    if ps == [] then None
    else if ps[0].id == pid then Some(0)
    else match FindParticipant(ps[1..], pid)
      case None => assert forall i :: 1 <= i < |ps| ==> ps[i] == ps[1..][i - 1]; None
      case Some(k) => Some(k + 1)
  }

  /** An admin, or the participant's own user, may mark a participant paid. */
  function CanMarkPaid(isAdmin: bool, caller: UserId, p: Participant): (allowed: bool)
    ensures allowed <==> isAdmin || p.user == caller
  {
    isAdmin || p.user == caller
  }

  /** Whoever may mark a participant of a request paid may also open that request. */
  lemma PayerCanView(isAdmin: bool, caller: UserId, createdBy: UserId, ps: seq<Participant>, k: nat)
    requires k < |ps| && CanMarkPaid(isAdmin, caller, ps[k])
    ensures CanView(isAdmin, caller, createdBy, ps)
  {
  }

  /**
   * A caller who is not an admin may mark only a share of their own: the
   * caller then has an entry in the request, the one the user dashboard
   * shows, and may not mark any share whose user is somebody else.
   */
  lemma NonAdminPaysOwnShare(caller: UserId, ps: seq<Participant>, k: nat)
    requires k < |ps|
    ensures CanMarkPaid(false, caller, ps[k]) <==> ps[k].user == caller
    ensures CanMarkPaid(false, caller, ps[k]) ==> OwnEntry(ps, caller).Some?
  {
  }

  /**
   * `PUT /:id/pay/:participantId`: not found for an unknown request or
   * participant, refused unless the caller is an admin or that participant's
   * user, and otherwise the participant is marked paid (whatever its previous
   * status and whatever the request's status) and the request completed
   * once everybody has paid.  A failure changes nothing.
   */
  method MarkParticipantPaid(doc: PaymentRequest?, pid: ParticipantId, caller: UserId, isAdmin: bool,
                             momo: Option<string>, now: Tick)
    returns (r: Outcome<RouteError>)
    requires doc != null ==> doc.Valid()
    modifies doc
    ensures doc != null ==> ContentKept(doc)
    ensures doc == null ==> r == Fail(RequestNotFound)
    ensures doc != null ==> doc.Valid()
    ensures doc != null && FindParticipant(old(doc.participants), pid).None? ==>
      r == Fail(ParticipantNotFound) && unchanged(doc)
    ensures doc != null && FindParticipant(old(doc.participants), pid).Some? ==>
      var k := FindParticipant(old(doc.participants), pid).value;
      if !CanMarkPaid(isAdmin, caller, old(doc.participants)[k]) then
        r == Fail(AccessDenied) && unchanged(doc)
      else
        && r == Pass
        && doc.participants == MarkAt(old(doc.participants), k, now, momo)
        && doc.status == NextStatus(doc.participants, old(doc.status))
        && doc.completedAt == (if AllPaid(doc.participants) then Some(now) else old(doc.completedAt))
        && doc.sentAt == old(doc.sentAt) && doc.updatedAt == now
  {
    if doc == null {
      return Fail(RequestNotFound);
    }
    var found := FindParticipant(doc.participants, pid);
    if found.None? {
      return Fail(ParticipantNotFound);
    }
    var k := found.value;
    if !CanMarkPaid(isAdmin, caller, doc.participants[k]) {
      return Fail(AccessDenied);
    }
    doc.MarkParticipantPaid(k, momo, now);
    return Pass;
  }

  // ------------------------------------------------------------------ stats

  /** `payment.participants.find(p => p.user === caller)` */
  function OwnEntry(ps: seq<Participant>, caller: UserId): (r: Option<Participant>)
    ensures r.Some? ==> r.value in ps && r.value.user == caller
    ensures r.Some? ==> exists k :: 0 <= k < |ps| && ps[k] == r.value && forall i :: 0 <= i < k ==> ps[i].user != caller
    ensures r.None? <==> forall i :: 0 <= i < |ps| ==> ps[i].user != caller
  {
    if ps == [] then None
    else if ps[0].user == caller then Some(ps[0])
    else
      var rest := OwnEntry(ps[1..], caller);
      assert forall i :: 1 <= i < |ps| ==> ps[i] == ps[1..][i - 1];
      assert rest.Some? ==> exists k :: 0 <= k < |ps| && ps[k] == rest.value && forall i :: 0 <= i < k ==> ps[i].user != caller by {
        if rest.Some? {
          var k :| 0 <= k < |ps[1..]| && ps[1..][k] == rest.value && forall i :: 0 <= i < k ==> ps[1..][i].user != caller;
          assert ps[k + 1] == rest.value;
        }
      }
      rest
  }

  /** The caller's shares over the given requests, added up. */
  function OwnShares(payments: seq<seq<Participant>>, caller: UserId): int {
    if payments == [] then 0
    else
      var e := OwnEntry(payments[|payments| - 1], caller);
      OwnShares(payments[..|payments| - 1], caller) + (if e.Some? then e.value.amount else 0)
  }

  /** The caller's shares in the requests where the caller has paid. */
  function PaidShares(payments: seq<seq<Participant>>, caller: UserId): int {
    if payments == [] then 0
    else
      var e := OwnEntry(payments[|payments| - 1], caller);
      PaidShares(payments[..|payments| - 1], caller) + (if e.Some? && e.value.status == Paid then e.value.amount else 0)
  }

  /** The caller's shares in the requests where the caller's status is anything but paid. */
  function OwedShares(payments: seq<seq<Participant>>, caller: UserId): int {
    if payments == [] then 0
    else
      var e := OwnEntry(payments[|payments| - 1], caller);
      OwedShares(payments[..|payments| - 1], caller) + (if e.Some? && e.value.status != Paid then e.value.amount else 0)
  }

  /** The number of requests where the caller's status is anything but paid. */
  function PendingCount(payments: seq<seq<Participant>>, caller: UserId): (c: nat)
    ensures c <= |payments|
  {
    if payments == [] then 0
    else
      var e := OwnEntry(payments[|payments| - 1], caller);
      PendingCount(payments[..|payments| - 1], caller) + (if e.Some? && e.value.status != Paid then 1 else 0)
  }

  /** Paid and owed shares together are all of the caller's shares. */
  lemma {:induction false} SharesSplit(payments: seq<seq<Participant>>, caller: UserId)
    ensures PaidShares(payments, caller) + OwedShares(payments, caller) == OwnShares(payments, caller)
  {
    if payments != [] {
      SharesSplit(payments[..|payments| - 1], caller);
    }
  }

  datatype UserStats = UserStats(totalOwed: int, totalPaid: int, pendingPayments: nat, completedPayments: nat)

  /**
   * The non-admin branch of `GET /stats/dashboard`, over the participant
   * lists of the requests found for the caller: paid shares, owed shares
   * (every status but paid), and the requests counted as pending or not.
   */
  method UserDashboardStats(payments: seq<seq<Participant>>, caller: UserId) returns (stats: UserStats)
    ensures stats.totalPaid == PaidShares(payments, caller)
    ensures stats.totalOwed == OwedShares(payments, caller)
    ensures stats.totalPaid + stats.totalOwed == OwnShares(payments, caller)
    ensures stats.pendingPayments == PendingCount(payments, caller)
    ensures stats.pendingPayments + stats.completedPayments == |payments|
  {
    var totalOwed := 0;
    var totalPaid := 0;
    var pendingPayments := 0;
    for i := 0 to |payments|
      invariant totalPaid == PaidShares(payments[..i], caller)
      invariant totalOwed == OwedShares(payments[..i], caller)
      invariant pendingPayments == PendingCount(payments[..i], caller)
    {
      assert payments[..i + 1][..i] == payments[..i];
      var userParticipant := OwnEntry(payments[i], caller);
      if userParticipant.Some? {
        if userParticipant.value.status == Paid {
          totalPaid := totalPaid + userParticipant.value.amount;
        } else {
          totalOwed := totalOwed + userParticipant.value.amount;
          pendingPayments := pendingPayments + 1;
        }
      }
    }
    assert payments[..|payments|] == payments;
    SharesSplit(payments, caller);
    stats := UserStats(totalOwed, totalPaid, pendingPayments, |payments| - pendingPayments);
  }

  /** What the admin branch of `GET /stats/dashboard` reads of each request. */
  datatype RequestSummary = RequestSummary(createdBy: UserId, status: RequestStatus, totalAmount: int)

  datatype AdminStats = AdminStats(
    totalRequests: nat, completedRequests: nat, pendingRequests: nat, totalAmount: int, completedAmount: int)

  /**
   * The admin branch of `GET /stats/dashboard`: the admin's own requests,
   * counted in all, completed, and draft or sent, with their totals; the
   * cancelled ones are counted only in all.
   */
  function AdminDashboardStats(docs: seq<RequestSummary>, admin: UserId): (s: AdminStats)
    ensures s.completedRequests + s.pendingRequests <= s.totalRequests <= |docs|
    ensures (forall i :: 0 <= i < |docs| ==> docs[i].totalAmount >= 0) ==> 0 <= s.completedAmount <= s.totalAmount
  {
    if docs == [] then AdminStats(0, 0, 0, 0, 0)
    else
      var prev := AdminDashboardStats(docs[..|docs| - 1], admin);
      var d := docs[|docs| - 1];
      if d.createdBy != admin then prev
      else AdminStats(
        prev.totalRequests + 1,
        prev.completedRequests + (if d.status == Completed then 1 else 0),
        prev.pendingRequests + (if d.status == Draft || d.status == Sent then 1 else 0),
        prev.totalAmount + d.totalAmount,
        prev.completedAmount + (if d.status == Completed then d.totalAmount else 0))
  }
}
