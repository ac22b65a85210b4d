/** Grouping result rows into bounded occurrence groups (compact_splunk_evidence in mcps/integrations/mcp_splunk.py). */
module Grouping {
  import opened Options
  import opened Ordering

  datatype Key = Key(
    source: string, exceptionClass: string, detail: string, operation: string, httpMethod: string, endpoint: string)

  /** A normalized row, or a result that is not an object. */
  datatype Row = NotObject | Row(key: Key, timestamp: string, stackTruncated: bool, stackExcerpt: string)

  datatype Group = Group(count: nat, firstSeen: string, lastSeen: string, samples: seq<Row>)

  datatype Bundle = Bundle(groups: seq<Group>, truncated: bool)

  const MAX_EVIDENCE_GROUPS: nat := 20

  predicate TimeLeq(a: Row, b: Row)
  {
    a.NotObject? || (b.Row? && TextLeq(a.timestamp, b.timestamp))
  }

  /** What the sort looks at: how often a group occurred, and when first and last. */
  datatype Profile = Profile(count: nat, firstSeen: string, lastSeen: string)

  function ProfileOf(g: Group): Profile { Profile(g.count, g.firstSeen, g.lastSeen) }

  /** Larger groups first, then by first and last occurrence. */
  predicate ProfileLeq(a: Profile, b: Profile) {
    || a.count > b.count
    || (a.count == b.count && a.firstSeen != b.firstSeen && TextLeq(a.firstSeen, b.firstSeen))
    || (a.count == b.count && a.firstSeen == b.firstSeen && TextLeq(a.lastSeen, b.lastSeen))
  }

  predicate GroupLeq(a: Group, b: Group) { ProfileLeq(ProfileOf(a), ProfileOf(b)) }

  // ----- grouping -----

  predicate Matches(row: Row, key: Key) { row.Row? && row.key == key }

  /** The rows of a key, in arrival order. */
  function Members(rows: seq<Row>, key: Key): (r: seq<Row>)
    ensures forall x :: x in r <==> x in rows && Matches(x, key)
  {
    if rows == [] then []
    else
      var last := |rows| - 1;
      if Matches(rows[last], key) then Members(rows[..last], key) + [rows[last]] else Members(rows[..last], key)
  }

  /** The keys, in order of first appearance. */
  function Keys(rows: seq<Row>): (r: seq<Key>)
    ensures forall k :: k in r <==> exists x :: x in rows && Matches(x, k)
    ensures forall i, j :: 0 <= i < j < |r| ==> r[i] != r[j]
  {
    if rows == [] then []
    else
      var last := |rows| - 1;
      var front := Keys(rows[..last]);
      assert forall x :: x in rows <==> x in rows[..last] || x == rows[last];
      assert rows[last].Row? ==> rows[last] in rows && Matches(rows[last], rows[last].key);
      if rows[last].NotObject? || rows[last].key in front then front else front + [rows[last].key]
  }

  function Objects(rows: seq<Row>): nat {
    if rows == [] then 0 else Objects(rows[..|rows| - 1]) + (if rows[|rows| - 1].Row? then 1 else 0)
  }

  function SampleLimit(maxSamples: int): nat {
    if maxSamples < 1 then 1 else if maxSamples > 5 then 5 else maxSamples
  }

  function Summary(members: seq<Row>, maxSamples: int): Group
    requires members != [] && forall x :: x in members ==> x.Row?
  {
    SortElements(TimeLeq, members);
    SortedRows(members);
    var ordered := Sort(TimeLeq, members);
    var limit := SampleLimit(maxSamples);
    Group(|members|, ordered[0].timestamp, ordered[|ordered| - 1].timestamp,
          ordered[..if limit < |ordered| then limit else |ordered|])
  }

  lemma {:induction false} SortedRows(members: seq<Row>)
    requires forall x :: x in members ==> x.Row?
    ensures forall x :: x in Sort(TimeLeq, members) <==> x in members
  {
    SortElements(TimeLeq, members);
    forall x ensures x in Sort(TimeLeq, members) <==> x in members {
      assert x in Sort(TimeLeq, members) <==> x in multiset(Sort(TimeLeq, members));
      assert x in members <==> x in multiset(members);
    }
  }

  lemma {:induction false} KeyHasMembers(rows: seq<Row>, key: Key)
    requires key in Keys(rows)
    ensures Members(rows, key) != []
  {
    var x :| x in rows && Matches(x, key);
    assert x in Members(rows, key);
  }

  lemma {:induction false} NewKeyHasNoMembers(rows: seq<Row>, key: Key)
    requires key !in Keys(rows)
    ensures Members(rows, key) == []
  {
    SomeMember(Members(rows, key));
  }

  function Summaries(rows: seq<Row>, keys: seq<Key>, maxSamples: int): (r: seq<Group>)
    requires forall k :: k in keys ==> k in Keys(rows)
    ensures |r| == |keys|
  {
    if keys == [] then []
    else
      var last := |keys| - 1;
      KeyHasMembers(rows, keys[last]);
      Summaries(rows, keys[..last], maxSamples) + [Summary(Members(rows, keys[last]), maxSamples)]
  }

  function Compact(rows: seq<Row>, maxSamples: int): Bundle {
    var all := Sort(GroupLeq, Summaries(rows, Keys(rows), maxSamples));
    var kept := all[..if MAX_EVIDENCE_GROUPS < |all| then MAX_EVIDENCE_GROUPS else |all|];
    Bundle(kept, |all| > MAX_EVIDENCE_GROUPS || AnyStackTruncated(kept))
  }

  predicate AnyStackTruncated(groups: seq<Group>) {
    exists i, j :: 0 <= i < |groups| && 0 <= j < |groups[i].samples| && groups[i].samples[j].Row? && groups[i].samples[j].stackTruncated
  }

  /** The grouping dictionary: its keys in insertion order and the rows of each. */
  class Grouped {
    var order: seq<Key>
    var members: map<Key, seq<Row>>

    ghost predicate Holds(rows: seq<Row>)
      reads this
    {
      TableOf(order, members, rows)
    }

    constructor ()
      ensures Holds([])
    {
      order, members := [], map[];
    }

    method Add(row: Row, ghost before: seq<Row>)
      requires Holds(before)
      modifies this
      ensures Holds(before + [row])
    {
      if row.Row? {
        if row.key in members {
          OldKey(order, members, before, row);
          members := members[row.key := members[row.key] + [row]];
        } else {
          NewKey(order, members, before, row);
          order := order + [row.key];
          members := members[row.key := [row]];
        }
      } else {
        NoKey(order, members, before, row);
      }
    }
  }

  /** The dictionary after these rows. */
  ghost predicate TableOf(order: seq<Key>, members: map<Key, seq<Row>>, rows: seq<Row>) {
    && order == Keys(rows)
    && (forall k :: k in members <==> k in order)
    && forall k :: k in members ==> members[k] == Members(rows, k)
  }

  lemma {:induction false} OldKey(order: seq<Key>, members: map<Key, seq<Row>>, before: seq<Row>, row: Row)
    requires TableOf(order, members, before) && row.Row? && row.key in members
    ensures TableOf(order, members[row.key := members[row.key] + [row]], before + [row])
  {
    KeysSnoc(before, row);
    var updated := members[row.key := members[row.key] + [row]];
    forall k | k in updated ensures updated[k] == Members(before + [row], k) { MembersSnoc(before, row, k); }
  }

  lemma {:induction false} NewKey(order: seq<Key>, members: map<Key, seq<Row>>, before: seq<Row>, row: Row)
    requires TableOf(order, members, before) && row.Row? && row.key !in members
    ensures TableOf(order + [row.key], members[row.key := [row]], before + [row])
  {
    KeysSnoc(before, row);
    NewKeyHasNoMembers(before, row.key);
    var updated := members[row.key := [row]];
    forall k | k in updated ensures updated[k] == Members(before + [row], k) { MembersSnoc(before, row, k); }
  }

  lemma {:induction false} NoKey(order: seq<Key>, members: map<Key, seq<Row>>, before: seq<Row>, row: Row)
    requires TableOf(order, members, before) && row.NotObject?
    ensures TableOf(order, members, before + [row])
  {
    KeysSnoc(before, row);
    forall k | k in members ensures members[k] == Members(before + [row], k) { MembersSnoc(before, row, k); }
  }

  lemma {:induction false} KeysSnoc(before: seq<Row>, row: Row)
    ensures Keys(before + [row]) ==
            if row.NotObject? || row.key in Keys(before) then Keys(before) else Keys(before) + [row.key]
  {
    assert (before + [row])[..|before|] == before;
  }

  lemma {:induction false} MembersSnoc(before: seq<Row>, row: Row, k: Key)
    ensures Members(before + [row], k) == if Matches(row, k) then Members(before, k) + [row] else Members(before, k)
  {
    assert (before + [row])[..|before|] == before;
  }

  method CompactEvidence(rows: seq<Row>, maxSamples: int) returns (bundle: Bundle)
    ensures bundle == Compact(rows, maxSamples)
  {
    var grouped := new Grouped();
    var i := 0;
    while i < |rows|
      invariant i <= |rows| && fresh(grouped) && grouped.Holds(rows[..i])
    {
      assert rows[..i + 1] == rows[..i] + [rows[i]];
      grouped.Add(rows[i], rows[..i]);
      i := i + 1;
    }
    assert rows[..i] == rows;
    var groups := Summarize(grouped, rows, maxSamples);
    groups := Sort(GroupLeq, groups);
    var all := |groups|;
    groups := groups[..if MAX_EVIDENCE_GROUPS < all then MAX_EVIDENCE_GROUPS else all];
    bundle := Bundle(groups, all > MAX_EVIDENCE_GROUPS || AnyStackTruncated(groups));
  }

  method Summarize(grouped: Grouped, ghost rows: seq<Row>, maxSamples: int) returns (groups: seq<Group>)
    requires grouped.Holds(rows)
    ensures groups == Summaries(rows, Keys(rows), maxSamples)
  {
    groups := [];
    var k := 0;
    while k < |grouped.order|
      invariant k <= |grouped.order|
      invariant groups == Summaries(rows, grouped.order[..k], maxSamples)
    {
      assert grouped.order[..k + 1][..k] == grouped.order[..k];
      KeyHasMembers(rows, grouped.order[k]);
      groups := groups + [Summary(grouped.members[grouped.order[k]], maxSamples)];
      k := k + 1;
    }
    assert grouped.order[..k] == grouped.order;
  }

  // ----- conservation -----

  function CountsOf(rows: seq<Row>, keys: seq<Key>): nat {
    if keys == [] then 0 else CountsOf(rows, keys[..|keys| - 1]) + |Members(rows, keys[|keys| - 1])|
  }

  /** One more row adds one to its own key's count and nothing to the others. */
  lemma {:induction false} CountsOfSnoc(rows: seq<Row>, row: Row, keys: seq<Key>)
    requires row.Row? && forall i, j :: 0 <= i < j < |keys| ==> keys[i] != keys[j]
    ensures CountsOf(rows + [row], keys) == CountsOf(rows, keys) + (if row.key in keys then 1 else 0)
  {
    assert (rows + [row])[..|rows|] == rows;
    if keys != [] {
      CountsOfSnoc(rows, row, keys[..|keys| - 1]);
    }
  }

  /** The group counts add up to the number of object rows. */
  lemma {:induction false} CountsAddUp(rows: seq<Row>)
    ensures CountsOf(rows, Keys(rows)) == Objects(rows)
  {
    if rows != [] {
      var last := |rows| - 1;
      var front, row := rows[..last], rows[last];
      CountsAddUp(front);
      assert rows == front + [row];
      KeysSnoc(front, row);
      if row.Row? {
        CountsOfSnoc(front, row, Keys(front));
        if row.key !in Keys(front) {
          NewKeyHasNoMembers(front, row.key);
          CountsOfNext(rows, Keys(front), row.key);
        }
      } else {
        SameCounts(front, row, Keys(front));
      }
    }
  }

  lemma {:induction false} CountsOfNext(rows: seq<Row>, keys: seq<Key>, key: Key)
    ensures CountsOf(rows, keys + [key]) == CountsOf(rows, keys) + |Members(rows, key)|
  {
    assert (keys + [key])[..|keys|] == keys;
  }

  lemma {:induction false} SameCounts(rows: seq<Row>, row: Row, keys: seq<Key>)
    requires row.NotObject?
    ensures CountsOf(rows + [row], keys) == CountsOf(rows, keys)
  {
    assert (rows + [row])[..|rows|] == rows;
    if keys != [] { SameCounts(rows, row, keys[..|keys| - 1]); }
  }

  lemma {:induction false} TimeLeqIsPreorder()
    ensures Preorder(TimeLeq)
  {
    TextLeqIsPreorder();
  }

  /** The first and last occurrence of a group are its earliest and latest timestamps. */
  lemma {:induction false} SummaryBounds(members: seq<Row>, maxSamples: int)
    requires members != [] && forall x :: x in members ==> x.Row?
    ensures var g := Summary(members, maxSamples);
      && g.count == |members|
      && (exists x :: x in members && x.timestamp == g.firstSeen)
      && (exists x :: x in members && x.timestamp == g.lastSeen)
      && (forall x :: x in members ==> TextLeq(g.firstSeen, x.timestamp) && TextLeq(x.timestamp, g.lastSeen))
      && (forall x :: x in g.samples ==> x in members)
      && 1 <= |g.samples| <= 5
  {
    TimeLeqIsPreorder();
    SortSorted(TimeLeq, members);
    SortElements(TimeLeq, members);
    SortedRows(members);
    var ordered := Sort(TimeLeq, members);
    assert ordered[0] in members && ordered[|ordered| - 1] in members;
    forall x | x in members
      ensures TextLeq(ordered[0].timestamp, x.timestamp) && TextLeq(x.timestamp, ordered[|ordered| - 1].timestamp)
    {
      EndsBound(ordered, x);
    }
    var g := Summary(members, maxSamples);
    forall x | x in g.samples ensures x in members {
      assert x in ordered;
    }
  }

  lemma {:induction false} EndsBound(ordered: seq<Row>, x: Row)
    requires x in ordered && SortedBy(TimeLeq, ordered) && forall y :: y in ordered ==> y.Row?
    ensures TextLeq(ordered[0].timestamp, x.timestamp) && TextLeq(x.timestamp, ordered[|ordered| - 1].timestamp)
  {
    var i :| 0 <= i < |ordered| && ordered[i] == x;
    TextLeqTotal(x.timestamp, x.timestamp);
    assert ordered[0] in ordered && ordered[|ordered| - 1] in ordered;
    assert i == 0 || TimeLeq(ordered[0], ordered[i]);
    assert i == |ordered| - 1 || TimeLeq(ordered[i], ordered[|ordered| - 1]);
  }

  // ----- row order does not matter -----

  function Profiles(groups: seq<Group>): (r: seq<Profile>)
    ensures |r| == |groups| && forall i :: 0 <= i < |r| ==> r[i] == ProfileOf(groups[i])
  {
    seq(|groups|, i requires 0 <= i < |groups| => ProfileOf(groups[i]))
  }

  lemma {:induction false} MembersCount(rows: seq<Row>, key: Key, x: Row)
    ensures multiset(Members(rows, key))[x] == if Matches(x, key) then multiset(rows)[x] else 0
  {
    if rows != [] {
      var last := |rows| - 1;
      MembersCount(rows[..last], key, x);
      assert rows == rows[..last] + [rows[last]];
    }
  }

  lemma {:induction false} MembersPermute(a: seq<Row>, b: seq<Row>, key: Key)
    requires multiset(a) == multiset(b)
    ensures multiset(Members(a, key)) == multiset(Members(b, key))
    ensures |Members(a, key)| == |Members(b, key)|
  {
    forall x ensures multiset(Members(a, key))[x] == multiset(Members(b, key))[x] {
      MembersCount(a, key, x);
      MembersCount(b, key, x);
    }
    assert multiset(Members(a, key)) == multiset(Members(b, key));
    assert |multiset(Members(a, key))| == |multiset(Members(b, key))|;
  }

  lemma {:induction false} ProfilePermutes(a: seq<Row>, b: seq<Row>, maxSamples: int)
    requires multiset(a) == multiset(b) && a != [] && b != []
    requires (forall x :: x in a ==> x.Row?) && (forall x :: x in b ==> x.Row?)
    ensures ProfileOf(Summary(a, maxSamples)) == ProfileOf(Summary(b, maxSamples))
  {
    assert |multiset(a)| == |multiset(b)|;
    forall x ensures x in a <==> x in b {
      assert x in a <==> x in multiset(a);
      assert x in b <==> x in multiset(b);
    }
    SummaryBounds(a, maxSamples);
    SummaryBounds(b, maxSamples);
    var p, q := Summary(a, maxSamples), Summary(b, maxSamples);
    TextLeqAntisymmetric(p.firstSeen, q.firstSeen);
    TextLeqAntisymmetric(p.lastSeen, q.lastSeen);
  }

  lemma {:induction false} DistinctCount(keys: seq<Key>, k: Key)
    requires forall i, j :: 0 <= i < j < |keys| ==> keys[i] != keys[j]
    ensures multiset(keys)[k] == if k in keys then 1 else 0
  {
    if keys != [] {
      var last := |keys| - 1;
      assert keys == keys[..last] + [keys[last]];
      DistinctCount(keys[..last], k);
    }
  }

  lemma {:induction false} KeysPermute(a: seq<Row>, b: seq<Row>)
    requires multiset(a) == multiset(b)
    ensures multiset(Keys(a)) == multiset(Keys(b))
  {
    forall x ensures x in a <==> x in b {
      assert x in a <==> x in multiset(a);
      assert x in b <==> x in multiset(b);
    }
    forall k ensures multiset(Keys(a))[k] == multiset(Keys(b))[k] {
      DistinctCount(Keys(a), k);
      DistinctCount(Keys(b), k);
    }
  }

  /** The profile multiset of a list of keys does not depend on their order. */
  lemma {:induction false} ProfilesOfPermutedKeys(a: seq<Row>, b: seq<Row>, ks: seq<Key>, ls: seq<Key>, maxSamples: int)
    requires multiset(a) == multiset(b) && multiset(ks) == multiset(ls)
    requires (forall k :: k in ks ==> k in Keys(a)) && (forall k :: k in ls ==> k in Keys(b))
    ensures multiset(Profiles(Summaries(a, ks, maxSamples))) == multiset(Profiles(Summaries(b, ls, maxSamples)))
    decreases |ks|
  {
    if ks == [] {
      assert |multiset(ls)| == 0;
    } else {
      var last := |ks| - 1;
      var i := PositionOf(ls, ks[last], multiset(ks));
      var fewer, rest := Without(ks, last), Without(ls, i);
      ProfilesOfPermutedKeys(a, b, fewer, rest, maxSamples);
      SummariesWithout(a, ks, fewer, last, maxSamples);
      SummariesWithout(b, ls, rest, i, maxSamples);
      SameProfile(a, b, ks, last, ls, i, maxSamples);
    }
  }

  lemma {:induction false} PositionOf(keys: seq<Key>, key: Key, all: multiset<Key>) returns (i: nat)
    requires multiset(keys) == all && key in all
    ensures i < |keys| && keys[i] == key
  {
    assert key in keys;
    i :| 0 <= i < |keys| && keys[i] == key;
  }

  function Without(keys: seq<Key>, i: nat): (rest: seq<Key>)
    requires i < |keys|
    ensures LeavesOut(keys, rest, i)
    ensures multiset(rest) == multiset(keys) - multiset{keys[i]}
    ensures forall k :: k in rest ==> k in keys
  {
    assert keys == keys[..i] + [keys[i]] + keys[i + 1..];
    keys[..i] + keys[i + 1..]
  }

  lemma {:induction false} SameProfile(a: seq<Row>, b: seq<Row>, ks: seq<Key>, i: nat, ls: seq<Key>, j: nat, maxSamples: int)
    requires multiset(a) == multiset(b) && i < |ks| && j < |ls| && ks[i] == ls[j]
    requires (forall k :: k in ks ==> k in Keys(a)) && (forall k :: k in ls ==> k in Keys(b))
    ensures ProfileOf(Summaries(a, ks, maxSamples)[i]) == ProfileOf(Summaries(b, ls, maxSamples)[j])
  {
    SummaryOfKey(a, ks, i, maxSamples);
    SummaryOfKey(b, ls, j, maxSamples);
    MembersPermute(a, b, ks[i]);
    ProfilePermutes(Members(a, ks[i]), Members(b, ls[j]), maxSamples);
  }

  /** Position j of a list whose position i is left out. */
  function Skipping(i: nat, j: nat): nat { if j < i then j else j + 1 }

  ghost predicate LeavesOut<T>(all: seq<T>, less: seq<T>, i: nat) {
    i < |all| == |less| + 1 && forall j: nat :: j < |less| ==> less[j] == all[Skipping(i, j)]
  }

  /** Leaving key i out leaves exactly its profile out. */
  lemma {:induction false} SummariesWithout(rows: seq<Row>, keys: seq<Key>, rest: seq<Key>, i: nat, maxSamples: int)
    requires (forall k :: k in keys ==> k in Keys(rows)) && (forall k :: k in rest ==> k in Keys(rows))
    requires LeavesOut(keys, rest, i)
    ensures var all, less := Summaries(rows, keys, maxSamples), Summaries(rows, rest, maxSamples);
      multiset(Profiles(all)) == multiset(Profiles(less)) + multiset{ProfileOf(all[i])}
  {
    var all, less := Summaries(rows, keys, maxSamples), Summaries(rows, rest, maxSamples);
    forall j: nat | j < |less| ensures less[j] == all[Skipping(i, j)] {
      SummaryOfKey(rows, keys, Skipping(i, j), maxSamples);
      SummaryOfKey(rows, rest, j, maxSamples);
    }
    ProfilesWithout(all, less, i);
  }

  lemma {:induction false} SummaryOfKey(rows: seq<Row>, keys: seq<Key>, j: nat, maxSamples: int)
    requires j < |keys| && forall k :: k in keys ==> k in Keys(rows)
    ensures Members(rows, keys[j]) != []
    ensures Summaries(rows, keys, maxSamples)[j] == Summary(Members(rows, keys[j]), maxSamples)
    decreases |keys|
  {
    KeyHasMembers(rows, keys[j]);
    if j < |keys| - 1 { SummaryOfKey(rows, keys[..|keys| - 1], j, maxSamples); }
  }

  lemma {:induction false} ProfilesWithout(all: seq<Group>, less: seq<Group>, i: nat)
    requires LeavesOut(all, less, i)
    ensures multiset(Profiles(all)) == multiset(Profiles(less)) + multiset{ProfileOf(all[i])}
  {
    var p, q := Profiles(all), Profiles(less);
    assert LeavesOut(p, q, i);
    WithoutAt(p, q, i);
  }

  lemma {:induction false} WithoutAt(all: seq<Profile>, less: seq<Profile>, i: nat)
    requires LeavesOut(all, less, i)
    ensures multiset(all) == multiset(less) + multiset{all[i]}
  {
    assert less == all[..i] + all[i + 1..];
    assert all == all[..i] + [all[i]] + all[i + 1..];
  }

  /** Permuting the rows leaves the multiset of (count, first seen, last seen) as it was. */
  lemma {:induction false} ProfilesIgnoreRowOrder(a: seq<Row>, b: seq<Row>, maxSamples: int)
    requires multiset(a) == multiset(b)
    ensures multiset(Profiles(Summaries(a, Keys(a), maxSamples))) == multiset(Profiles(Summaries(b, Keys(b), maxSamples)))
  {
    KeysPermute(a, b);
    ProfilesOfPermutedKeys(a, b, Keys(a), Keys(b), maxSamples);
  }

  // ----- the sort and the cap -----

  lemma {:induction false} ProfileLeqIsOrder()
    ensures Preorder(ProfileLeq) && Antisymmetric(ProfileLeq)
  {
    forall x: Profile, y: Profile ensures ProfileLeq(x, y) || ProfileLeq(y, x) {
      TextLeqTotal(x.firstSeen, y.firstSeen);
      TextLeqTotal(x.lastSeen, y.lastSeen);
    }
    forall x: Profile, y: Profile, z: Profile | ProfileLeq(x, y) && ProfileLeq(y, z) ensures ProfileLeq(x, z) {
      ProfileLeqTransitive(x, y, z);
    }
    forall x: Profile, y: Profile | ProfileLeq(x, y) && ProfileLeq(y, x) ensures x == y {
      if x.firstSeen != y.firstSeen {
        TextLeqAntisymmetric(x.firstSeen, y.firstSeen);
      } else {
        TextLeqAntisymmetric(x.lastSeen, y.lastSeen);
      }
    }
  }

  lemma {:induction false} ProfileLeqTransitive(x: Profile, y: Profile, z: Profile)
    requires ProfileLeq(x, y) && ProfileLeq(y, z)
    ensures ProfileLeq(x, z)
  {
    if x.count == y.count == z.count {
      if x.firstSeen != y.firstSeen && y.firstSeen != z.firstSeen {
        TextLeqTransitive(x.firstSeen, y.firstSeen, z.firstSeen);
        if x.firstSeen == z.firstSeen { TextLeqAntisymmetric(x.firstSeen, y.firstSeen); }
      } else if x.firstSeen == y.firstSeen == z.firstSeen {
        TextLeqTransitive(x.lastSeen, y.lastSeen, z.lastSeen);
      }
    }
  }

  lemma {:induction false} GroupLeqIsPreorder()
    ensures Preorder(GroupLeq)
  {
    ProfileLeqIsOrder();
  }

  lemma {:induction false} ProfilesInserted(x: Group, s: seq<Group>)
    ensures Profiles(InsertStable(GroupLeq, x, s)) == InsertStable(ProfileLeq, ProfileOf(x), Profiles(s))
  {
    if s != [] {
      assert Profiles(s)[1..] == Profiles(s[1..]);
      ProfilesInserted(x, s[1..]);
    }
  }

  /** Sorting groups sorts their profiles. */
  lemma {:induction false} ProfilesSorted(s: seq<Group>)
    ensures Profiles(Sort(GroupLeq, s)) == Sort(ProfileLeq, Profiles(s))
  {
    if s != [] {
      assert Profiles(s)[1..] == Profiles(s[1..]);
      ProfilesSorted(s[1..]);
      ProfilesInserted(s[0], Sort(GroupLeq, s[1..]));
    }
  }

  /** Permuting the rows leaves the counts and times of the kept groups as they were, in the same order. */
  lemma {:induction false} CompactIgnoresRowOrder(a: seq<Row>, b: seq<Row>, maxSamples: int)
    requires multiset(a) == multiset(b)
    ensures Profiles(Compact(a, maxSamples).groups) == Profiles(Compact(b, maxSamples).groups)
  {
    var one, other := Summaries(a, Keys(a), maxSamples), Summaries(b, Keys(b), maxSamples);
    ProfilesIgnoreRowOrder(a, b, maxSamples);
    ProfilesSorted(one);
    ProfilesSorted(other);
    ProfileLeqIsOrder();
    SortUnique(ProfileLeq, Profiles(one), Profiles(other));
    assert Profiles(Sort(GroupLeq, one)) == Profiles(Sort(GroupLeq, other));
    assert |Sort(GroupLeq, one)| == |Sort(GroupLeq, other)|;
  }

  /** The kept groups and the dropped ones together are all of them, and every kept group sorts before every dropped one. */
  lemma {:induction false} CapKeepsTheFirst(rows: seq<Row>, maxSamples: int) returns (dropped: seq<Group>)
    ensures var kept := Compact(rows, maxSamples).groups;
      && |kept| <= MAX_EVIDENCE_GROUPS
      && multiset(kept + dropped) == multiset(Summaries(rows, Keys(rows), maxSamples))
      && (dropped != [] ==> |kept| == MAX_EVIDENCE_GROUPS && Compact(rows, maxSamples).truncated)
      && (forall g, h :: g in kept && h in dropped ==> GroupLeq(g, h))
  {
    var sums := Summaries(rows, Keys(rows), maxSamples);
    var all := Sort(GroupLeq, sums);
    GroupLeqIsPreorder();
    SortSorted(GroupLeq, sums);
    SortElements(GroupLeq, sums);
    var n := if MAX_EVIDENCE_GROUPS < |all| then MAX_EVIDENCE_GROUPS else |all|;
    dropped := all[n..];
    assert all[..n] + dropped == all;
    SplitSorted(GroupLeq, all, n);
  }
}
