/**
 * The admin dashboard's logic: shortening the greeting's user name, the
 * per-user selection record that the checkboxes and amount fields update,
 * the guards of the automatic split, and the assembly of the participant
 * list submitted to create a payment request.
 */
module AdminDashboard {
  import opened Wrappers
  import opened Text
  import opened NumberFormat

  // ---------------------------------------------------------------- user name

  /** `truncateUsername(username, maxLength)` */
  function TruncateUsername(name: string, maxLength: int): (r: string)
  {
    if |name| <= maxLength then name
    else if '@' in name then
      var at := IndexOf(name, '@');
      var localPart := name[..at];
      var rest := name[at + 1..];
      var domain := rest[..IndexOf(rest, '@')];
      if |localPart| > maxLength - 8 then Prefix(localPart, maxLength - 8) + "...@" + domain else name
    else Prefix(name, maxLength - 3) + "..."
  }

  /** A name that fits is shown as it is. */
  lemma ShortNameUnchanged(name: string, maxLength: int)
    requires |name| <= maxLength
    ensures TruncateUsername(name, maxLength) == name
  {
  }

  /** A long name without `@` keeps its first `maxLength - 3` characters and ends in "...", exactly `maxLength` long. */
  lemma LongPlainName(name: string, maxLength: int)
    requires |name| > maxLength >= 3 && '@' !in name
    ensures TruncateUsername(name, maxLength) == name[..maxLength - 3] + "..."
    ensures |TruncateUsername(name, maxLength)| == maxLength
  {
  }

  /**
   * A long e-mail address keeps the first `maxLength - 8` characters of its
   * local part, then "...@" and the text between the first and any second
   * `@`; when the local part is short enough the address is shown whole,
   * even though it is too long.
   */
  lemma LongEmailName(name: string, maxLength: int, localPart: string, domain: string, tail: string)
    requires |name| > maxLength >= 8
    requires name == localPart + "@" + domain + tail
    requires '@' !in localPart && '@' !in domain && (tail == [] || tail[0] == '@')
    ensures |localPart| > maxLength - 8 ==>
      TruncateUsername(name, maxLength) == localPart[..maxLength - 8] + "...@" + domain
    ensures |localPart| <= maxLength - 8 ==> TruncateUsername(name, maxLength) == name
  {
    var rest := domain + tail;
    assert name == localPart + ("@" + rest);
    FirstAt(localPart, "@" + rest);
    var at := IndexOf(name, '@');
    assert '@' in name by {
      assert name[at] == '@';
    }
    assert name[at + 1..] == rest;
    FirstAt(domain, tail);
    var shown := TruncateUsername(name, maxLength);
    if |localPart| > maxLength - 8 {
      assert shown == Prefix(localPart, maxLength - 8) + "...@" + domain;
    } else {
      assert shown == name;
    }
  }

  /** In `a + b`, where `a` has no `@` and `b` is empty or starts with one, the first `@` ends `a`. */
  lemma FirstAt(a: string, b: string)
    requires '@' !in a && (b == [] || b[0] == '@')
    ensures IndexOf(a + b, '@') == |a| && (a + b)[..|a|] == a
  {
    var s := a + b;
    assert s[..|a|] == a;
    assert b != [] ==> s[|a|] == b[0];
    IndexOfIs(s, '@', |a|);
  }

  // ----------------------------------------------------------- selection map

  /** One user's entry in `selectedUsers`; a missing `selected` flag reads as false. */
  datatype SelEntry = SelEntry(selected: bool, amount: nat)

  /**
   * The `selectedUsers` object: its entries and its keys in insertion order
   * (user ids are not array-index-like strings, so `Object.keys` lists them
   * in the order they were first set).
   */
  datatype Selection = Selection(keys: seq<string>, entries: map<string, SelEntry>)

  ghost predicate WellFormed(sel: Selection) {
    (forall i, j :: 0 <= i < j < |sel.keys| ==> sel.keys[i] != sel.keys[j])
    && (forall id :: id in sel.entries <==> id in sel.keys)
  }

  /** `prev[id]?.selected`, false for a missing entry. */
  function IsSelected(sel: Selection, id: string): bool {
    id in sel.entries && sel.entries[id].selected
  }

  /** `prev[id]?.amount || 0` */
  function AmountOf(sel: Selection, id: string): nat {
    if id in sel.entries then sel.entries[id].amount else 0
  }

  /** `{ ...prev, [id]: e }`: an existing key keeps its place, a new key goes last. */
  function Put(sel: Selection, id: string, e: SelEntry): (r: Selection)
    requires WellFormed(sel)
    ensures WellFormed(r)
    ensures r.entries == sel.entries[id := e]
    ensures r.keys == if id in sel.entries then sel.keys else sel.keys + [id]
  {
    Selection(if id in sel.entries then sel.keys else sel.keys + [id], sel.entries[id := e])
  }

  /** `toggleUserSelection(id)`: flips that user's flag, keeps its amount, and changes no other entry. */
  function ToggleUserSelection(sel: Selection, id: string): (r: Selection)
    requires WellFormed(sel)
    ensures WellFormed(r)
    ensures IsSelected(r, id) == !IsSelected(sel, id) && AmountOf(r, id) == AmountOf(sel, id)
    ensures forall other :: other != id ==>
      (other in r.entries <==> other in sel.entries)
      && (other in sel.entries ==> r.entries[other] == sel.entries[other])
    ensures r.keys == if id in sel.entries then sel.keys else sel.keys + [id]
  {
    Put(sel, id, SelEntry(!IsSelected(sel, id), AmountOf(sel, id)))
  }

  /** Toggling twice restores the user's flag and amount. */
  lemma ToggleTwice(sel: Selection, id: string)
    requires WellFormed(sel)
    ensures var twice := ToggleUserSelection(ToggleUserSelection(sel, id), id);
      IsSelected(twice, id) == IsSelected(sel, id) && AmountOf(twice, id) == AmountOf(sel, id)
  {
  }

  /**
   * `handleAmountChange(id, value)`: that user's amount becomes the value of
   * the typed digits, its flag is kept, and no other entry changes.
   */
  function HandleAmountChange(sel: Selection, id: string, value: string): (r: Selection)
    requires WellFormed(sel)
    ensures WellFormed(r)
    ensures AmountOf(r, id) == Value(Digits(value)) && IsSelected(r, id) == IsSelected(sel, id)
    ensures forall other :: other != id ==>
      (other in r.entries <==> other in sel.entries)
      && (other in sel.entries ==> r.entries[other] == sel.entries[other])
  {
    ParseFormatted(value);
    Put(sel, id, SelEntry(IsSelected(sel, id), ParseAmount(FormatNumber(value))))
  }

  /** `Object.keys(selectedUsers).filter(id => selectedUsers[id]?.selected)` */
  function SelectedIds(keys: seq<string>, sel: Selection): (r: seq<string>)
    ensures |r| <= |keys|
    ensures forall id :: id in r <==> id in keys && IsSelected(sel, id)
  {
    if keys == [] then [] else (if IsSelected(sel, keys[0]) then [keys[0]] else []) + SelectedIds(keys[1..], sel)
  }

  // ------------------------------------------------------------- total field

  /** The dashboard's `handleTotalChange`: unlike the create-request card it stores the grouped text. */
  function AdminTotalChange(value: string): (total: string)
    ensures DigitsAndCommas(total)
    ensures ParseAmount(total) == Value(Digits(value))
  {
    ParseFormatted(value);
    FormatNumber(value)
  }

  // ---------------------------------------------------------------- autoSplit

  datatype AutoSplitOutcome = MissingTotal | NobodySelected | OpenSplitPopup

  /** `autoSplit()`: the error it reports, or that it opens the split popup. */
  function AutoSplit(total: string, sel: Selection): (r: AutoSplitOutcome)
    ensures r == MissingTotal <==> total == []
    ensures r == NobodySelected <==> total != [] && forall id :: id in sel.keys ==> !IsSelected(sel, id)
    ensures r == OpenSplitPopup ==> exists id :: id in sel.keys && IsSelected(sel, id)
  {
    var ids := SelectedIds(sel.keys, sel);
    if total == [] then MissingTotal
    else if |ids| == 0 then NobodySelected
    else assert ids[0] in ids; OpenSplitPopup
  }

  // -------------------------------------------------------- sendAllRequests

  /** A user of the list loaded from the server, or the signed-in admin. */
  datatype User = User(id: string, fullName: string, phone: string)

  /** One element of `allParticipants`. */
  datatype Entry = Entry(user: User, amount: nat)

  /** One element of the `participants` of the create payload. */
  datatype ParticipantInput = ParticipantInput(name: string, phone: string, amount: nat)

  datatype CreatePayload = CreatePayload(
    title: string, description: string, totalAmount: nat, participants: seq<ParticipantInput>)

  datatype SendError = NothingToSend

  const DefaultTitle: string := "Yêu cầu thanh toán"

  /** `users.find(u => u._id === id)` */
  function FindUser(users: seq<User>, id: string): (r: Option<User>)
    ensures r.Some? ==> r.value in users && r.value.id == id
    ensures r.None? <==> forall u :: u in users ==> u.id != id
  {
    if users == [] then None else if users[0].id == id then Some(users[0]) else FindUser(users[1..], id)
  }

  /**
   * `validRequests`: for each key in order, the user with that id and its
   * amount, when the key is selected with a positive amount and such a user
   * exists.
   */
  function Eligible(keys: seq<string>, sel: Selection, users: seq<User>): (r: seq<Entry>)
  {
    if keys == [] then []
    else
      var id := keys[0];
      var here := if IsSelected(sel, id) && AmountOf(sel, id) > 0 && FindUser(users, id).Some?
        then [Entry(FindUser(users, id).value, AmountOf(sel, id))] else [];
      here + Eligible(keys[1..], sel, users)
  }

  /** Every eligible entry comes from a selected key with a positive amount and a known user. */
  lemma {:induction false} EligibleSound(keys: seq<string>, sel: Selection, users: seq<User>)
    ensures |Eligible(keys, sel, users)| <= |keys|
    ensures forall e :: e in Eligible(keys, sel, users) ==>
      e.user in users && e.user.id in keys && IsSelected(sel, e.user.id)
      && e.amount == AmountOf(sel, e.user.id) > 0
  {
    if keys != [] {
      EligibleSound(keys[1..], sel, users);
    }
  }

  /** Every selected key with a positive amount and a known user is in the list. */
  lemma {:induction false} EligibleComplete(keys: seq<string>, sel: Selection, users: seq<User>, id: string)
    requires id in keys && IsSelected(sel, id) && AmountOf(sel, id) > 0 && FindUser(users, id).Some?
    ensures Entry(FindUser(users, id).value, AmountOf(sel, id)) in Eligible(keys, sel, users)
  {
    if keys[0] != id {
      EligibleComplete(keys[1..], sel, users, id);
    }
  }

  /** `Math.round(t / k)` for non-negative `t`: the nearest integer, halves rounded up. */
  function RoundDiv(t: nat, k: nat): (r: nat)
    requires k >= 1
    ensures 2 * t < (2 * r + 1) * k && (2 * r - 1) * k <= 2 * t
  {
    (2 * t + k) / (2 * k)
  }

  /** The entry appended for the admin when "include myself" is ticked. */
  function AdminEntry(admin: Option<User>, amount: nat): Entry {
    var id := if admin.Some? && admin.value.id != [] then admin.value.id else "admin";
    var name := if admin.Some? && admin.value.fullName != [] then admin.value.fullName else "Admin";
    var phone := if admin.Some? && admin.value.phone != [] then admin.value.phone else "0000000000";
    Entry(User(id, name, phone), amount)
  }

  function ToInput(e: Entry): ParticipantInput {
    ParticipantInput(e.user.fullName, e.user.phone, e.amount)
  }

  function SumAmounts(ps: seq<ParticipantInput>): nat {
    if ps == [] then 0 else ps[0].amount + SumAmounts(ps[1..])
  }

  /**
   * `sendAllRequests()` followed by the popup's confirmation: the list of
   * eligible users, plus one admin entry when "include myself" is ticked and
   * someone is selected, rejected when empty, and turned into the create
   * payload whose total is the sum of the participants' amounts.
   */
  method SendAllRequests(sel: Selection, users: seq<User>, includeSelf: bool, total: string,
                         description: string, admin: Option<User>)
    returns (r: Result<CreatePayload, SendError>)
    requires DigitsAndCommas(total)
    ensures var valid := Eligible(sel.keys, sel, users);
      var selectedCount := |SelectedIds(sel.keys, sel)|;
      var withSelf := includeSelf && selectedCount > 0;
      && (r.Failure? <==> |valid| == 0 && !withSelf)
      && (r.Success? ==>
        && r.value.totalAmount == SumAmounts(r.value.participants)
        && r.value.title == (if description == [] then DefaultTitle else description)
        && r.value.description == r.value.title
        && |r.value.participants| == |valid| + (if withSelf then 1 else 0)
        && (forall i :: 0 <= i < |valid| ==> r.value.participants[i] == ToInput(valid[i]))
        && (withSelf ==>
              r.value.participants[|valid|]
              == ToInput(AdminEntry(admin, RoundDiv(ParseAmount(total), selectedCount + 1)))))
  {
    var validRequests := Eligible(sel.keys, sel, users);
    var selectedUserIds := SelectedIds(sel.keys, sel);
    var withSelf := includeSelf && |selectedUserIds| > 0;
    var allParticipants := validRequests;
    if withSelf {
      var totalAmount := ParseAmount(total);
      var totalPeople := |selectedUserIds| + 1;
      var adminAmount := RoundDiv(totalAmount, totalPeople);
      allParticipants := allParticipants + [AdminEntry(admin, adminAmount)];
      assert allParticipants[|validRequests|] == AdminEntry(admin, adminAmount);
    }
    assert |allParticipants| == |validRequests| + (if withSelf then 1 else 0);
    assert forall i :: 0 <= i < |validRequests| ==> allParticipants[i] == validRequests[i];
    if |allParticipants| == 0 {
      return Failure(NothingToSend);
    }
    var participants := seq(|allParticipants|, i requires 0 <= i < |allParticipants| => ToInput(allParticipants[i]));
    var title := if description == [] then DefaultTitle else description;
    r := Success(CreatePayload(title, title, SumAmounts(participants), participants));
  }
}
