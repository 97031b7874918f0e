/** The conversation sidebar of `ChatSidebar.tsx`: the search over titles and
    message texts, the grouping of the matching conversations by how
    recently they were updated, and the handlers for creating, renaming and
    deleting conversations. The current time and the parsing of the
    `updatedAt` timestamps into local calendar time are parameters. */
module ChatSidebar {
  import opened Wrappers
  import opened Text
  import opened Types
  import Sequences
  import ChatStore

  // ---------------------------------------------------------------- search

  /** The filter of `filteredConversations`: the lower-cased query occurs in
      the lower-cased title or in the lower-cased text of some message. */
  predicate MatchesQuery(c: Conversation, query: string)
  {
    var q := ToLower(query);
    || Contains(ToLower(c.title), q)
    || Sequences.Any(c.messages, (m: Message) => Contains(ToLower(m.content), q))
  }

  function Matching(query: string): Conversation -> bool
  {
    c => MatchesQuery(c, query)
  }

  /** `filteredConversations`: the conversations that match, in their
      order. */
  function FilterConversations(cs: seq<Conversation>, query: string): (r: seq<Conversation>)
    ensures forall i :: 0 <= i < |r| ==> r[i] in cs && MatchesQuery(r[i], query)
    ensures forall i :: 0 <= i < |cs| && MatchesQuery(cs[i], query) ==> cs[i] in r
    ensures Sequences.IsSubsequence(r, cs)
    ensures forall c :: multiset(r)[c] == if MatchesQuery(c, query) then multiset(cs)[c] else 0
  {
    Sequences.FilterMultiplicity(cs, Matching(query));
    Sequences.Filter(cs, Matching(query))
  }

  lemma {:induction false} ContainsEmpty(s: string)
    ensures Contains(s, "")
  {
    assert StartsWith(s, "");
  }

  /** An empty search keeps every conversation. */
  lemma EmptyQueryKeepsAll(cs: seq<Conversation>)
    ensures FilterConversations(cs, "") == cs
  {
    forall c | c in cs ensures Matching("")(c) {
      ContainsEmpty(ToLower(c.title));
    }
    Sequences.FilterAll(cs, Matching(""));
  }

  /** The search ignores case: queries that agree once lower-cased select
      the same conversations. */
  lemma SearchIgnoresCase(cs: seq<Conversation>, q1: string, q2: string)
    requires ToLower(q1) == ToLower(q2)
    ensures FilterConversations(cs, q1) == FilterConversations(cs, q2)
  {
    Sequences.FilterCongruent(cs, Matching(q1), Matching(q2));
  }

  lemma UpperQueryFindsLower(cs: seq<Conversation>, q: string)
    ensures FilterConversations(cs, ToLower(q)) == FilterConversations(cs, q)
  {
    ToLowerIdempotent(q);
    SearchIgnoresCase(cs, ToLower(q), q);
  }

  // -------------------------------------------------------------- grouping

  /** A point in local time: the calendar day, counted in days, and the
      milliseconds into that day. */
  datatype LocalTime = LocalTime(day: int, millis: int)

  /** `a > b` on the instants the two local times stand for. */
  predicate Later(a: LocalTime, b: LocalTime)
  {
    a.day > b.day || (a.day == b.day && a.millis > b.millis)
  }

  datatype Bucket = Today | Yesterday | ThisWeek | Older

  /** The heading each bucket is shown under. */
  function Heading(b: Bucket): string
  {
    match b
    case Today => "Today"
    case Yesterday => "Yesterday"
    case ThisWeek => "This Week"
    case Older => "Older"
  }

  /** The bucket of one conversation: same calendar day as now, the day
      before, later than the same time seven days ago, or older. A timestamp
      that does not parse (`None`) fails all three tests. */
  function BucketOf(date: Option<LocalTime>, now: LocalTime): Bucket
  {
    if date.None? then Older
    else if date.value.day == now.day then Today
    else if date.value.day == now.day - 1 then Yesterday
    else if Later(date.value, LocalTime(now.day - 7, now.millis)) then ThisWeek
    else Older
  }

  /** How recent a bucket is, from 0 for today to 3 for older. */
  function Rank(b: Bucket): nat
  {
    match b
    case Today => 0
    case Yesterday => 1
    case ThisWeek => 2
    case Older => 3
  }

  /** For dates up to today, an older date never lands in a more recent
      bucket. */
  lemma BucketMonotone(d1: LocalTime, d2: LocalTime, now: LocalTime)
    requires d1.day <= d2.day <= now.day
    requires d1.day == d2.day ==> d1.millis <= d2.millis
    ensures Rank(BucketOf(Some(d1), now)) >= Rank(BucketOf(Some(d2), now))
  {
  }

  /** A past date in "This Week" lies two to seven calendar days back. */
  lemma ThisWeekRange(d: LocalTime, now: LocalTime)
    requires d.day <= now.day && BucketOf(Some(d), now) == ThisWeek
    ensures now.day - 7 <= d.day <= now.day - 2
  {
  }

  /** A date after today is not "Today" but falls in "This Week", since it
      is later than a week ago. */
  lemma FutureIsThisWeek(d: LocalTime, now: LocalTime)
    requires d.day > now.day
    ensures BucketOf(Some(d), now) == ThisWeek
  {
  }

  /** One heading and the conversations under it. */
  datatype Group = Group(bucket: Bucket, conversations: seq<Conversation>)

  function InBucket(key: Conversation -> Bucket, b: Bucket): Conversation -> bool
  {
    c => key(c) == b
  }

  predicate Keyed(key: Conversation -> Bucket, b: Bucket, c: Conversation)
  {
    key(c) == b
  }

  function BucketsOf(groups: seq<Group>): (r: seq<Bucket>)
    ensures |r| == |groups|
    ensures forall i :: 0 <= i < |r| ==> r[i] == groups[i].bucket
  {
    seq(|groups|, i requires 0 <= i < |groups| => groups[i].bucket)
  }

  /** Each group holds the members of `xs` in its bucket, in order. */
  ghost predicate Filtered(groups: seq<Group>, xs: seq<Conversation>, key: Conversation -> Bucket)
  {
    forall i :: 0 <= i < |groups| ==> groups[i].conversations == Sequences.Filter(xs, InBucket(key, groups[i].bucket))
  }

  predicate DistinctBuckets(groups: seq<Group>)
  {
    forall i, j :: 0 <= i < j < |groups| ==> groups[i].bucket != groups[j].bucket
  }

  /** Every member of `xs` has a group. */
  predicate Covers(groups: seq<Group>, xs: seq<Conversation>, key: Conversation -> Bucket)
  {
    forall k :: 0 <= k < |xs| ==> key(xs[k]) in BucketsOf(groups)
  }

  predicate NoEmptyGroup(groups: seq<Group>)
  {
    forall i :: 0 <= i < |groups| ==> groups[i].conversations != []
  }

  /** The groups come in the order their buckets first occur in `xs`. */
  predicate FirstOrdered(groups: seq<Group>, xs: seq<Conversation>, key: Conversation -> Bucket)
  {
    forall i, j :: 0 <= i < j < |groups| ==> FirstOf(xs, key, groups[i].bucket) < FirstOf(xs, key, groups[j].bucket)
  }

  /** `groups` holds, for each bucket that occurs in `xs`, once, the
      members of `xs` in that bucket in their order; the buckets are in the
      order of their first occurrence. */
  ghost predicate Grouping(groups: seq<Group>, xs: seq<Conversation>, key: Conversation -> Bucket)
  {
    Filtered(groups, xs, key) && DistinctBuckets(groups) && Covers(groups, xs, key)
    && NoEmptyGroup(groups) && FirstOrdered(groups, xs, key)
  }

  /** The position of the first member of `xs` in bucket `b`, or |xs|. */
  function FirstOf(xs: seq<Conversation>, key: Conversation -> Bucket, b: Bucket): (r: nat)
    ensures r <= |xs|
    ensures r < |xs| ==> key(xs[r]) == b
    ensures forall k :: 0 <= k < r ==> key(xs[k]) != b
  {
    if xs == [] then 0
    else if key(xs[0]) == b then 0
    else 1 + FirstOf(xs[1..], key, b)
  }

  lemma {:induction false} FirstOfSnoc(xs: seq<Conversation>, x: Conversation, key: Conversation -> Bucket, b: Bucket)
    ensures FirstOf(xs + [x], key, b) == if FirstOf(xs, key, b) < |xs| then FirstOf(xs, key, b)
                                          else if key(x) == b then |xs| else |xs| + 1
  {
    if xs != [] {
      assert (xs + [x])[1..] == xs[1..] + [x];
      FirstOfSnoc(xs[1..], x, key, b);
    }
  }

  /** The `reduce` that builds `groupedConversations`: each conversation is
      pushed onto the group of its bucket, and a group is created the first
      time its bucket is met. */
  method GroupByBucket(cs: seq<Conversation>, key: Conversation -> Bucket) returns (groups: seq<Group>)
    ensures Grouping(groups, cs, key)
  {
    groups := [];
    ghost var seen: seq<Conversation> := [];
    var k := 0;
    while k < |cs|
      invariant 0 <= k <= |cs| && seen == cs[..k]
      invariant Grouping(groups, seen, key)
    {
      groups := Push(groups, seen, cs[k], key);
      seen := seen + [cs[k]];
      Sequences.TakeSnoc(cs, k);
      k := k + 1;
    }
    assert seen == cs;
  }

  /** One step of the `reduce`. */
  method Push(groups: seq<Group>, ghost xs: seq<Conversation>, c: Conversation, key: Conversation -> Bucket)
    returns (r: seq<Group>)
    requires Grouping(groups, xs, key)
    ensures Grouping(r, xs + [c], key)
  {
    var j := IndexOf(groups, key(c));
    if j < |groups| {
      JoinGroup(groups, xs, c, key, j);
      r := groups[j := Group(key(c), groups[j].conversations + [c])];
    } else {
      OpenGroup(groups, xs, c, key);
      r := groups + [Group(key(c), [c])];
    }
  }

  /** The position of the group for bucket `b`, or |groups| when there is
      none. */
  method IndexOf(groups: seq<Group>, b: Bucket) returns (j: nat)
    ensures j <= |groups|
    ensures j < |groups| ==> groups[j].bucket == b
    ensures j == |groups| ==> forall g :: 0 <= g < |groups| ==> groups[g].bucket != b
  {
    j := 0;
    while j < |groups| && groups[j].bucket != b
      invariant j <= |groups|
      invariant forall g :: 0 <= g < j ==> groups[g].bucket != b
    {
      j := j + 1;
    }
  }

  /** Every group's members and first position after `x` is appended. */
  lemma Appended(groups: seq<Group>, xs: seq<Conversation>, x: Conversation, key: Conversation -> Bucket)
    ensures forall g :: 0 <= g < |groups| ==>
              Sequences.Filter(xs + [x], InBucket(key, groups[g].bucket))
              == Sequences.Filter(xs, InBucket(key, groups[g].bucket)) + (if groups[g].bucket == key(x) then [x] else [])
    ensures forall g :: 0 <= g < |groups| && FirstOf(xs, key, groups[g].bucket) < |xs| ==>
              FirstOf(xs + [x], key, groups[g].bucket) == FirstOf(xs, key, groups[g].bucket)
  {
    forall g | 0 <= g < |groups|
      ensures Sequences.Filter(xs + [x], InBucket(key, groups[g].bucket))
              == Sequences.Filter(xs, InBucket(key, groups[g].bucket)) + (if groups[g].bucket == key(x) then [x] else [])
      ensures FirstOf(xs, key, groups[g].bucket) < |xs| ==>
              FirstOf(xs + [x], key, groups[g].bucket) == FirstOf(xs, key, groups[g].bucket)
    {
      Sequences.FilterSnoc(xs, x, InBucket(key, groups[g].bucket));
      FirstOfSnoc(xs, x, key, groups[g].bucket);
    }
  }

  /** Every group of a grouping has a member, so its bucket occurs. */
  lemma GroupsOccur(groups: seq<Group>, xs: seq<Conversation>, key: Conversation -> Bucket)
    requires Filtered(groups, xs, key) && NoEmptyGroup(groups)
    ensures forall g :: 0 <= g < |groups| ==> FirstOf(xs, key, groups[g].bucket) < |xs|
  {
    forall g | 0 <= g < |groups| ensures FirstOf(xs, key, groups[g].bucket) < |xs| {
      var x := groups[g].conversations[0];
      assert x in Sequences.Filter(xs, InBucket(key, groups[g].bucket));
      var k :| 0 <= k < |xs| && xs[k] == x;
      assert FirstOf(xs, key, groups[g].bucket) <= k;
    }
  }

  /** A conversation whose bucket already has a group joins that group. */
  lemma JoinGroup(groups: seq<Group>, xs: seq<Conversation>, c: Conversation, key: Conversation -> Bucket, j: nat)
    requires Grouping(groups, xs, key)
    requires j < |groups| && groups[j].bucket == key(c)
    ensures Grouping(groups[j := Group(key(c), groups[j].conversations + [c])], xs + [c], key)
  {
    var groups' := groups[j := Group(key(c), groups[j].conversations + [c])];
    assert BucketsOf(groups') == BucketsOf(groups);
    JoinCovers(groups, groups', xs, c, key, j);
    JoinFiltered(groups, xs, c, key, j);
    JoinOrdered(groups, xs, c, key, j);
  }

  lemma JoinFiltered(groups: seq<Group>, xs: seq<Conversation>, c: Conversation, key: Conversation -> Bucket, j: nat)
    requires Filtered(groups, xs, key) && DistinctBuckets(groups)
    requires j < |groups| && groups[j].bucket == key(c)
    ensures Filtered(groups[j := Group(key(c), groups[j].conversations + [c])], xs + [c], key)
  {
    var groups' := groups[j := Group(key(c), groups[j].conversations + [c])];
    Appended(groups, xs, c, key);
    forall g | 0 <= g < |groups'|
      ensures groups'[g].conversations == Sequences.Filter(xs + [c], InBucket(key, groups'[g].bucket))
    {
      if g == j {
        assert groups'[g].conversations == groups[j].conversations + [c];
      } else {
        assert groups'[g] == groups[g];
      }
    }
  }

  /** Appending a member does not move the first occurrence of a bucket
      that already has a group. */
  lemma FirstsKept(groups: seq<Group>, xs: seq<Conversation>, c: Conversation, key: Conversation -> Bucket)
    requires Filtered(groups, xs, key) && NoEmptyGroup(groups)
    ensures forall g :: 0 <= g < |groups| ==>
              FirstOf(xs + [c], key, groups[g].bucket) == FirstOf(xs, key, groups[g].bucket) < |xs|
  {
    GroupsOccur(groups, xs, key);
    forall g | 0 <= g < |groups|
      ensures FirstOf(xs + [c], key, groups[g].bucket) == FirstOf(xs, key, groups[g].bucket) < |xs|
    {
      FirstOfSnoc(xs, c, key, groups[g].bucket);
    }
  }

  lemma JoinOrdered(groups: seq<Group>, xs: seq<Conversation>, c: Conversation, key: Conversation -> Bucket, j: nat)
    requires Filtered(groups, xs, key) && NoEmptyGroup(groups) && FirstOrdered(groups, xs, key)
    requires j < |groups| && groups[j].bucket == key(c)
    ensures FirstOrdered(groups[j := Group(key(c), groups[j].conversations + [c])], xs + [c], key)
  {
    var groups' := groups[j := Group(key(c), groups[j].conversations + [c])];
    FirstsKept(groups, xs, c, key);
    forall g | 0 <= g < |groups| ensures groups'[g].bucket == groups[g].bucket {
    }
  }

  lemma JoinCovers(groups: seq<Group>, groups': seq<Group>, xs: seq<Conversation>, c: Conversation, key: Conversation -> Bucket, j: nat)
    requires Covers(groups, xs, key)
    requires j < |groups| == |groups'| && groups'[j].bucket == key(c)
    requires BucketsOf(groups') == BucketsOf(groups)
    ensures Covers(groups', xs + [c], key)
  {
    forall k | 0 <= k < |xs + [c]| ensures key((xs + [c])[k]) in BucketsOf(groups') {
      if k < |xs| {
        assert (xs + [c])[k] == xs[k];
      } else {
        assert BucketsOf(groups')[j] == key(c);
      }
    }
  }

  /** A conversation whose bucket has no group yet opens a new last
      group. */
  lemma OpenGroup(groups: seq<Group>, xs: seq<Conversation>, c: Conversation, key: Conversation -> Bucket)
    requires Grouping(groups, xs, key)
    requires forall g :: 0 <= g < |groups| ==> groups[g].bucket != key(c)
    ensures Grouping(groups + [Group(key(c), [c])], xs + [c], key)
  {
    var groups' := groups + [Group(key(c), [c])];
    var b := key(c);
    forall k | 0 <= k < |xs| ensures key(xs[k]) != b {
      assert key(xs[k]) in BucketsOf(groups);
    }
    NoneInBucket(xs, key, b);
    OpenFiltered(groups, xs, c, key);
    FirstsKept(groups, xs, c, key);
    FirstOfSnoc(xs, c, key, b);
    OpenOrdered(groups, xs, c, key);
    OpenCovers(groups, xs, c, key);
  }

  lemma OpenFiltered(groups: seq<Group>, xs: seq<Conversation>, c: Conversation, key: Conversation -> Bucket)
    requires Filtered(groups, xs, key)
    requires forall g :: 0 <= g < |groups| ==> groups[g].bucket != key(c)
    requires Sequences.Filter(xs, InBucket(key, key(c))) == []
    ensures Filtered(groups + [Group(key(c), [c])], xs + [c], key)
  {
    Sequences.FilterSnoc(xs, c, InBucket(key, key(c)));
    Appended(groups, xs, c, key);
  }

  lemma OpenOrdered(groups: seq<Group>, xs: seq<Conversation>, c: Conversation, key: Conversation -> Bucket)
    requires FirstOrdered(groups, xs, key)
    requires forall g :: 0 <= g < |groups| ==>
               FirstOf(xs + [c], key, groups[g].bucket) == FirstOf(xs, key, groups[g].bucket) < |xs|
    requires FirstOf(xs + [c], key, key(c)) == |xs|
    ensures FirstOrdered(groups + [Group(key(c), [c])], xs + [c], key)
  {
    var groups' := groups + [Group(key(c), [c])];
    forall i, j | 0 <= i < j < |groups'|
      ensures FirstOf(xs + [c], key, groups'[i].bucket) < FirstOf(xs + [c], key, groups'[j].bucket)
    {
      var bi, bj := BucketAfterSnoc(groups, Group(key(c), [c]), i), BucketAfterSnoc(groups, Group(key(c), [c]), j);
      if j < |groups| {
        assert FirstOf(xs + [c], key, bi) == FirstOf(xs, key, bi);
        assert FirstOf(xs + [c], key, bj) == FirstOf(xs, key, bj);
        assert FirstOf(xs, key, groups[i].bucket) < FirstOf(xs, key, groups[j].bucket);
      } else {
        assert FirstOf(xs + [c], key, bi) < |xs|;
      }
    }
  }

  /** The bucket of the `i`-th group once a group is appended. */
  function BucketAfterSnoc(groups: seq<Group>, last: Group, i: nat): (b: Bucket)
    requires i <= |groups|
    ensures b == (groups + [last])[i].bucket
    ensures i < |groups| ==> b == groups[i].bucket
    ensures i == |groups| ==> b == last.bucket
  {
    if i < |groups| then groups[i].bucket else last.bucket
  }

  lemma OpenCovers(groups: seq<Group>, xs: seq<Conversation>, c: Conversation, key: Conversation -> Bucket)
    requires Covers(groups, xs, key)
    ensures Covers(groups + [Group(key(c), [c])], xs + [c], key)
  {
    var groups' := groups + [Group(key(c), [c])];
    forall k | 0 <= k < |xs + [c]| ensures key((xs + [c])[k]) in BucketsOf(groups') {
      if k < |xs| {
        assert (xs + [c])[k] == xs[k];
        assert key(xs[k]) in BucketsOf(groups);
        var g :| 0 <= g < |groups| && BucketsOf(groups)[g] == key(xs[k]);
        assert BucketsOf(groups')[g] == key(xs[k]);
      } else {
        assert BucketsOf(groups')[|groups|] == key(c);
      }
    }
  }

  lemma {:induction false} NoneInBucket(xs: seq<Conversation>, key: Conversation -> Bucket, b: Bucket)
    requires forall k :: 0 <= k < |xs| ==> key(xs[k]) != b
    ensures Sequences.Filter(xs, InBucket(key, b)) == []
    ensures FirstOf(xs, key, b) == |xs|
  {
    if xs != [] {
      NoneInBucket(xs[1..], key, b);
    }
  }

  /** The bucket of a conversation by its `updatedAt`, read with `parse`. */
  function ByUpdate(now: LocalTime, parse: string -> Option<LocalTime>): Conversation -> Bucket
  {
    (c: Conversation) => BucketOf(parse(c.updatedAt), now)
  }

  /** `groupedConversations` for the current search, time and timestamp
      parser. */
  method GroupedConversations(cs: seq<Conversation>, query: string, now: LocalTime,
                              parse: string -> Option<LocalTime>) returns (groups: seq<Group>)
    ensures Grouping(groups, FilterConversations(cs, query), ByUpdate(now, parse))
  {
    groups := GroupByBucket(FilterConversations(cs, query), ByUpdate(now, parse));
  }

  /** A patch that carries only a title renames and stamps, and changes
      nothing else. */
  lemma TitleOnly(t: string, now: string)
    ensures forall c: Conversation :: ChatStore.Updated(c, EmptyConversationPatch.(title := Some(t)), now)
                                      == c.(title := t, updatedAt := now)
  {
  }

  lemma RenameByPatch(before: seq<Conversation>, after: seq<Conversation>, id: string, t: string, now: string)
    requires |after| == |before|
    requires forall i :: 0 <= i < |after| ==>
               after[i] == if before[i].id == id
                           then ChatStore.Updated(before[i], EmptyConversationPatch.(title := Some(t)), now)
                           else before[i]
    ensures Renamed(before, after, id, t, now)
  {
    TitleOnly(t, now);
  }

  /** `after` is `before` with every conversation of that id retitled `t`
      and stamped `now`, and nothing else changed. */
  predicate Renamed(before: seq<Conversation>, after: seq<Conversation>, id: string, t: string, now: string)
  {
    && |after| == |before|
    && forall i :: 0 <= i < |after| ==>
         after[i] == if before[i].id == id then before[i].(title := t, updatedAt := now) else before[i]
  }

  // -------------------------------------------------------------- handlers

  /** The sidebar's own state next to the store it drives. */
  class Sidebar {
    var searchQuery: string
    var editingId: Option<string>
    var editTitle: string
    const store: ChatStore.ChatStore

    constructor (s: ChatStore.ChatStore)
      ensures searchQuery == "" && editingId == None && editTitle == "" && store == s
    {
      searchQuery := "";
      editingId := None;
      editTitle := "";
      store := s;
    }

    /** The conversations the list shows. */
    function Visible(): (r: seq<Conversation>)
      reads this, store
      ensures Sequences.IsSubsequence(r, store.conversations)
      ensures forall i :: 0 <= i < |r| ==> MatchesQuery(r[i], searchQuery)
      ensures forall c :: c in store.conversations && MatchesQuery(c, searchQuery) ==> c in r
      ensures forall c :: multiset(r)[c] == if MatchesQuery(c, searchQuery) then multiset(store.conversations)[c] else 0
    {
      FilterConversations(store.conversations, searchQuery)
    }

    method SetSearchQuery(q: string)
      modifies this
      ensures searchQuery == q && editingId == old(editingId) && editTitle == old(editTitle)
    {
      searchQuery := q;
    }

    /** `handleNewChat`: a new conversation with the default title, made
        active. */
    method NewChat(freshId: string, now: string)
      modifies store
      ensures store.conversations == [ChatStore.NewConversation(freshId, None, now)] + old(store.conversations)
      ensures store.activeConversationId == Some(freshId)
      ensures store.isLoading == old(store.isLoading) && store.error == old(store.error)
    {
      var id := store.CreateNewConversation(None, freshId, now);
      store.SetActiveConversation(Some(id));
    }

    /** Clicking an entry makes it the active conversation. */
    method Select(id: string)
      modifies store
      ensures store.activeConversationId == Some(id)
      ensures store.conversations == old(store.conversations)
      ensures store.isLoading == old(store.isLoading) && store.error == old(store.error)
    {
      store.SetActiveConversation(Some(id));
    }

    /** `handleDeleteConversation`: deletes only when the user confirms. */
    method DeleteConversation(id: string, confirmed: bool)
      modifies store
      ensures !confirmed ==> store.conversations == old(store.conversations)
                             && store.activeConversationId == old(store.activeConversationId)
      ensures confirmed ==> (forall i :: 0 <= i < |store.conversations| ==> store.conversations[i].id != id)
                            && Sequences.IsSubsequence(store.conversations, old(store.conversations))
      ensures confirmed ==> forall c :: c in old(store.conversations) && c.id != id ==> c in store.conversations
      ensures confirmed ==> forall c :: multiset(store.conversations)[c] ==
                                       if c.id == id then 0 else multiset(old(store.conversations))[c]
      ensures confirmed ==> store.activeConversationId == if old(store.activeConversationId) == Some(id) then None
                                                          else old(store.activeConversationId)
      ensures store.isLoading == old(store.isLoading) && store.error == old(store.error)
    {
      if confirmed {
        store.DeleteConversation(id);
      }
    }

    /** `handleEditStart`. */
    method EditStart(id: string, currentTitle: string)
      modifies this
      ensures editingId == Some(id) && editTitle == currentTitle && searchQuery == old(searchQuery)
    {
      editingId := Some(id);
      editTitle := currentTitle;
    }

    method SetEditTitle(t: string)
      modifies this
      ensures editTitle == t && editingId == old(editingId) && searchQuery == old(searchQuery)
    {
      editTitle := t;
    }

    /** `handleEditSave`: a title that is not blank is saved trimmed; the
        edit state is cleared either way. */
    method EditSave(id: string, now: string)
      modifies this, store
      ensures editingId == None && editTitle == "" && searchQuery == old(searchQuery)
      ensures Trim(old(editTitle)) == "" ==> store.conversations == old(store.conversations)
      ensures Trim(old(editTitle)) != "" ==>
                Renamed(old(store.conversations), store.conversations, id, Trim(old(editTitle)), now)
      ensures store.activeConversationId == old(store.activeConversationId)
      ensures store.isLoading == old(store.isLoading) && store.error == old(store.error)
    {
      var trimmed, before := Trim(editTitle), store.conversations;
      editingId := None;
      editTitle := "";
      if trimmed != "" {
        store.UpdateConversation(id, EmptyConversationPatch.(title := Some(trimmed)), now);
        RenameByPatch(before, store.conversations, id, trimmed, now);
      } else {
        assert store.conversations == before;
      }
    }

    /** `handleEditCancel`: clears the edit state and leaves the store
        alone. */
    method EditCancel()
      modifies this
      ensures editingId == None && editTitle == "" && searchQuery == old(searchQuery)
    {
      editingId := None;
      editTitle := "";
    }
  }
}
