/**
 * The selection sheet of frontend/components/payments/ParticipantsSheet.tsx:
 * the select-all flag, the search over names and phones, the checked mark
 * of a row and what the select-all button asks for.
 */
module ParticipantsSheet {
  import opened Wrappers
  import opened Text
  import opened Sequences

  datatype Member = Member(id: string, name: string, phone: Option<string>)

  /** `selectedIds.length === members.length && members.length > 0`: a count, not a membership test. */
  function AllChecked(selectedIds: seq<string>, members: seq<Member>): bool {
    |selectedIds| == |members| && |members| > 0
  }

  /** Counting alone can show everything checked while a member is not selected. */
  lemma AllCheckedByCountOnly()
    ensures var members := [Member("u1", "An", None)];
      AllChecked(["someone-else"], members) && !IsChecked(["someone-else"], members[0].id)
  {
  }

  function MemberIds(members: seq<Member>): (ids: set<string>)
    ensures forall i :: 0 <= i < |members| ==> members[i].id in ids
    ensures forall id :: id in ids ==> exists i :: 0 <= i < |members| && members[i].id == id
  {
    if members == [] then {}
    else
      var n := |members| - 1;
      assert forall i :: 0 <= i < n ==> members[..n][i] == members[i];
      MemberIds(members[..n]) + {members[n].id}
  }

  /** A sequence without repeated elements. */
  predicate Distinct(s: seq<string>) {
    forall i, j :: 0 <= i < j < |s| ==> s[i] != s[j]
  }

  lemma {:induction false} DistinctCard(s: seq<string>)
    requires Distinct(s)
    ensures |set x | x in s| == |s|
    decreases |s|
  {
    if s != [] {
      var init := s[..|s| - 1];
      DistinctCard(init);
      assert (set x | x in s) == (set x | x in init) + {s[|s| - 1]};
    }
  }

  lemma {:induction false} DistinctMembersCard(members: seq<Member>)
    requires forall i, j :: 0 <= i < j < |members| ==> members[i].id != members[j].id
    ensures |MemberIds(members)| == |members|
    decreases |members|
  {
    if members != [] {
      var n := |members| - 1;
      var init := members[..n];
      assert forall i :: 0 <= i < n ==> init[i] == members[i];
      DistinctMembersCard(init);
      assert forall i :: 0 <= i < n ==> init[i].id != members[n].id;
    }
  }

  /**
   * When the selected ids are distinct ids of members whose ids are
   * distinct, which is how the dashboard keeps them, the count test of
   * `allChecked` means exactly that every member is selected.
   */
  lemma AllCheckedMeansEveryone(selectedIds: seq<string>, members: seq<Member>)
    requires Distinct(selectedIds)
    requires forall i, j :: 0 <= i < j < |members| ==> members[i].id != members[j].id
    requires forall k :: 0 <= k < |selectedIds| ==> selectedIds[k] in MemberIds(members)
    ensures AllChecked(selectedIds, members) <==>
      |members| > 0 && forall i :: 0 <= i < |members| ==> IsChecked(selectedIds, members[i].id)
  {
    var chosen := set x | x in selectedIds;
    var ids := MemberIds(members);
    DistinctCard(selectedIds);
    DistinctMembersCard(members);
    assert chosen <= ids;
    SubsetCard(chosen, ids);
    if |selectedIds| == |members| && |members| > 0 {
      SubsetSameCard(chosen, ids);
      forall i | 0 <= i < |members| ensures IsChecked(selectedIds, members[i].id) {
        assert members[i].id in chosen;
      }
    }
    if |members| > 0 && forall i :: 0 <= i < |members| ==> IsChecked(selectedIds, members[i].id) {
      forall id | id in ids ensures id in chosen {
        var i :| 0 <= i < |members| && members[i].id == id;
        assert IsChecked(selectedIds, members[i].id);
      }
      SubsetCard(ids, chosen);
    }
  }

  lemma {:induction false} SubsetCard(a: set<string>, b: set<string>)
    requires a <= b
    ensures |a| <= |b|
    decreases a
  {
    if a != {} {
      var x :| x in a;
      SubsetCard(a - {x}, b - {x});
    }
  }

  lemma SubsetSameCard(a: set<string>, b: set<string>)
    requires a <= b && |a| == |b|
    ensures a == b
  {
    if a != b {
      assert !(b <= a);
      var missing :| missing in b && missing !in a;
      SubsetCard(a, b - {missing});
      assert false;
    }
  }

  /** The trimmed, lower-cased search text. */
  function Query(search: string): string {
    ToLower(Trim(search))
  }

  /** `m.name.toLowerCase().includes(q) || (m.phone ?? '').includes(q)` */
  predicate Matches(m: Member, q: string) {
    Contains(ToLower(m.name), q) || Contains(m.phone.GetOr(""), q)
  }

  /** The `filtered` memo: every member for an empty query, otherwise those matching it, in order. */
  function Filtered(search: string, members: seq<Member>): (r: seq<Member>)
    ensures forall m :: m in r <==> m in members && Matches(m, Query(search))
  {
    var q := Query(search);
    if q == [] then
      assert forall m :: Matches(m, q) by {
        forall m ensures Matches(m, q) {
          EmptyQueryMatches(m);
        }
      }
      members
    else Filter(members, (m: Member) => Matches(m, q))
  }

  /** Every member matches the empty query. */
  lemma EmptyQueryMatches(m: Member)
    ensures Matches(m, [])
  {
    assert OccursAt(ToLower(m.name), [], 0);
  }

  /** The shown rows keep the members' order. */
  lemma FilteredKeepsOrder(search: string, members: seq<Member>)
    ensures Sublist(Filtered(search, members), members)
  {
    if Query(search) == [] {
      SublistRefl(members);
    } else {
      FilterIsSublist(members, (m: Member) => Matches(m, Query(search)));
    }
  }

  /** A blank or whitespace-only search shows every member, unchanged. */
  lemma BlankSearchShowsAll(search: string, members: seq<Member>)
    requires forall i :: 0 <= i < |search| ==> IsSpace(search[i])
    ensures Filtered(search, members) == members
  {
  }

  /** The empty-query shortcut agrees with the filter itself: an empty query matches everyone. */
  lemma ShortcutAgreesWithFilter(search: string, members: seq<Member>)
    ensures Filtered(search, members) == Filter(members, (m: Member) => Matches(m, Query(search)))
  {
    if Query(search) == [] {
      forall m | m in members ensures Matches(m, Query(search)) {
        EmptyQueryMatches(m);
      }
      FilterKeepsAll(members, (m: Member) => Matches(m, Query(search)));
    }
  }

  /** `selectedIds.includes(item.id)` */
  function IsChecked(selectedIds: seq<string>, id: string): (checked: bool)
    ensures checked <==> exists k :: 0 <= k < |selectedIds| && selectedIds[k] == id
  {
    id in selectedIds
  }

  /** The select-all button asks for the opposite of the current flag. */
  function ToggleAllRequest(selectedIds: seq<string>, members: seq<Member>): (checked: bool)
    ensures checked <==> !(|selectedIds| == |members| && |members| > 0)
  {
    !AllChecked(selectedIds, members)
  }

  /**
   * With distinct selected ids of distinct members, the select-all button
   * asks to select everyone exactly when the list is empty or some member
   * is still unchecked, and to clear the selection once every member is
   * checked.
   */
  lemma ToggleAllSelectsMissing(selectedIds: seq<string>, members: seq<Member>)
    requires Distinct(selectedIds)
    requires forall i, j :: 0 <= i < j < |members| ==> members[i].id != members[j].id
    requires forall k :: 0 <= k < |selectedIds| ==> selectedIds[k] in MemberIds(members)
    ensures ToggleAllRequest(selectedIds, members) <==>
      members == [] || exists i :: 0 <= i < |members| && !IsChecked(selectedIds, members[i].id)
  {
    AllCheckedMeansEveryone(selectedIds, members);
  }
}
