/**
 * The conversation sidebar: `groupConversations` sorts conversations into four date
 * buckets with first-match precedence, and the rename controls keep an editing state.
 * The date tests of `date-fns` depend on the clock and the time zone, so they are
 * given as a `Calendar` of predicates on the timestamp.
 */
module ConversationSidebar {
  import opened Optional
  import opened Ordering
  import opened Text

  datatype Conversation = Conversation(id: string, title: string, updatedAt: int)

  /** `isToday`, `isYesterday` and `isThisWeek` of `date-fns` at the current moment. */
  datatype Calendar = Calendar(isToday: int -> bool, isYesterday: int -> bool, isThisWeek: int -> bool)

  datatype Bucket = Today | Yesterday | ThisWeek | Older

  /** A group; `heading` is the source's `label` (a reserved word here). */
  datatype Group = Group(heading: string, items: seq<Conversation>)

  function Label(b: Bucket): string {
    match b
    case Today => "Today"
    case Yesterday => "Yesterday"
    case ThisWeek => "This Week"
    case Older => "Older"
  }

  /** The position of a label in the fixed order, -1 for any other text. */
  function LabelRank(heading: string): int {
    if heading == "Today" then 0
    else if heading == "Yesterday" then 1
    else if heading == "This Week" then 2
    else if heading == "Older" then 3
    else -1
  }

  /** The bucket of a conversation: the first date test that holds. */
  function BucketOf(cal: Calendar, c: Conversation): Bucket {
    if cal.isToday(c.updatedAt) then Today
    else if cal.isYesterday(c.updatedAt) then Yesterday
    else if cal.isThisWeek(c.updatedAt) then ThisWeek
    else Older
  }

  function InBucket(cal: Calendar, b: Bucket): Conversation -> bool {
    c => BucketOf(cal, c) == b
  }

  function NonEmpty(g: Group): bool {
    g.items != []
  }

  /** The four groups before empty ones are dropped, each with its bucket's conversations in input order. */
  function AllGroups(cal: Calendar, cs: seq<Conversation>): seq<Group> {
    [ Group("Today", Filter(cs, InBucket(cal, Today))),
      Group("Yesterday", Filter(cs, InBucket(cal, Yesterday))),
      Group("This Week", Filter(cs, InBucket(cal, ThisWeek))),
      Group("Older", Filter(cs, InBucket(cal, Older))) ]
  }

  /** What `groupConversations` returns. */
  function Grouped(cal: Calendar, cs: seq<Conversation>): seq<Group> {
    Filter(AllGroups(cal, cs), NonEmpty)
  }

  /** A bucket's list as the `forEach` leaves it: each conversation of the bucket pushed in turn. */
  function Pushed(cal: Calendar, cs: seq<Conversation>, b: Bucket): seq<Conversation>
    decreases |cs|
  {
    if cs == [] then []
    else Pushed(cal, cs[..|cs| - 1], b) + (if BucketOf(cal, cs[|cs| - 1]) == b then [cs[|cs| - 1]] else [])
  }

  /** Pushing in turn selects the bucket's conversations in input order. */
  lemma {:induction false} PushedIsFilter(cal: Calendar, cs: seq<Conversation>, b: Bucket)
    ensures Pushed(cal, cs, b) == Filter(cs, InBucket(cal, b))
    decreases |cs|
  {
    if cs != [] {
      var init, c := cs[..|cs| - 1], cs[|cs| - 1];
      assert cs == init + [c];
      PushedIsFilter(cal, init, b);
      FilterAppend(init, [c], InBucket(cal, b));
      FilterSingle(c, InBucket(cal, b));
    }
  }

  /**
   * `groupConversations`: one pass pushes each conversation onto its bucket's list,
   * then the empty groups are dropped.
   */
  method GroupConversations(cal: Calendar, cs: seq<Conversation>) returns (groups: seq<Group>)
    ensures groups == Grouped(cal, cs)
  {
    var today, yesterday, thisWeek, older := [], [], [], [];
    var i := 0;
    while i < |cs|
      invariant 0 <= i <= |cs|
      invariant today == Pushed(cal, cs[..i], Today)
      invariant yesterday == Pushed(cal, cs[..i], Yesterday)
      invariant thisWeek == Pushed(cal, cs[..i], ThisWeek)
      invariant older == Pushed(cal, cs[..i], Older)
    {
      var c := cs[i];
      assert cs[..i + 1][..i] == cs[..i];
      if cal.isToday(c.updatedAt) {
        today := today + [c];
      } else if cal.isYesterday(c.updatedAt) {
        yesterday := yesterday + [c];
      } else if cal.isThisWeek(c.updatedAt) {
        thisWeek := thisWeek + [c];
      } else {
        older := older + [c];
      }
      i := i + 1;
    }
    assert cs[..|cs|] == cs;
    PushedIsFilter(cal, cs, Today);
    PushedIsFilter(cal, cs, Yesterday);
    PushedIsFilter(cal, cs, ThisWeek);
    PushedIsFilter(cal, cs, Older);
    var all := [Group("Today", today), Group("Yesterday", yesterday),
                Group("This Week", thisWeek), Group("Older", older)];
    groups := Filter(all, NonEmpty);
  }

  /** Groups come in the fixed order Today, Yesterday, This Week, Older (each at most once), none empty. */
  lemma GroupsInFixedOrder(cal: Calendar, cs: seq<Conversation>)
    ensures forall g :: g in Grouped(cal, cs) ==> g.items != []
    ensures forall g :: g in Grouped(cal, cs) ==> 0 <= LabelRank(g.heading)
    ensures StrictlyIncreasingBy(Grouped(cal, cs), (g: Group) => LabelRank(g.heading))
  {
    var all := AllGroups(cal, cs);
    var key := (g: Group) => LabelRank(g.heading);
    assert forall k :: 0 <= k < 4 ==> key(all[k]) == k;
    FilterKeepsStrictOrder(all, NonEmpty, key);
  }

  /** A group's items are exactly the input's conversations of its bucket, in input order. */
  lemma GroupItemsInInputOrder(cal: Calendar, cs: seq<Conversation>, g: Group)
    requires g in Grouped(cal, cs)
    ensures exists b :: g.heading == Label(b) && g.items == Filter(cs, InBucket(cal, b))
  {
    var all := AllGroups(cal, cs);
    assert g in all;
    if g == all[0] {
      assert g.heading == Label(Today);
    } else if g == all[1] {
      assert g.heading == Label(Yesterday);
    } else if g == all[2] {
      assert g.heading == Label(ThisWeek);
    } else {
      assert g.heading == Label(Older);
    }
  }

  /** Each bucket's group is among the four groups. */
  lemma BucketGroupInAll(cal: Calendar, cs: seq<Conversation>, b: Bucket)
    ensures Group(Label(b), Filter(cs, InBucket(cal, b))) in AllGroups(cal, cs)
  {
    var all := AllGroups(cal, cs);
    match b
    case Today => assert all[0] == Group(Label(b), Filter(cs, InBucket(cal, b)));
    case Yesterday => assert all[1] == Group(Label(b), Filter(cs, InBucket(cal, b)));
    case ThisWeek => assert all[2] == Group(Label(b), Filter(cs, InBucket(cal, b)));
    case Older => assert all[3] == Group(Label(b), Filter(cs, InBucket(cal, b)));
  }

  /**
   * Every input conversation lands in the group of its first matching date test, and
   * in no other group.
   */
  lemma EachConversationInItsGroup(cal: Calendar, cs: seq<Conversation>, c: Conversation)
    requires c in cs
    ensures Group(Label(BucketOf(cal, c)), Filter(cs, InBucket(cal, BucketOf(cal, c)))) in Grouped(cal, cs)
    ensures forall g :: g in Grouped(cal, cs) && c in g.items ==> g.heading == Label(BucketOf(cal, c))
  {
    var b := BucketOf(cal, c);
    var items := Filter(cs, InBucket(cal, b));
    assert InBucket(cal, b)(c);
    assert c in items;
    BucketGroupInAll(cal, cs, b);
    assert NonEmpty(Group(Label(b), items));
    forall g | g in Grouped(cal, cs) && c in g.items ensures g.heading == Label(b) {
      GroupItemsInInputOrder(cal, cs, g);
      var b' :| g.heading == Label(b') && g.items == Filter(cs, InBucket(cal, b'));
      assert InBucket(cal, b')(c);
    }
  }

  /** The number of conversations across `gs`. */
  function TotalItems(gs: seq<Group>): nat
    decreases |gs|
  {
    if gs == [] then 0 else |gs[0].items| + TotalItems(gs[1..])
  }

  /** Dropping empty groups loses no conversation. */
  lemma {:induction false} TotalItemsNonEmpty(gs: seq<Group>)
    ensures TotalItems(Filter(gs, NonEmpty)) == TotalItems(gs)
    decreases |gs|
  {
    if gs != [] {
      TotalItemsNonEmpty(gs[1..]);
      var rest := Filter(gs[1..], NonEmpty);
      if NonEmpty(gs[0]) {
        assert Filter(gs, NonEmpty) == [gs[0]] + rest;
        assert ([gs[0]] + rest)[0] == gs[0] && ([gs[0]] + rest)[1..] == rest;
      } else {
        assert Filter(gs, NonEmpty) == rest;
      }
    }
  }

  /** Every conversation falls in exactly one of the four buckets. */
  lemma {:induction false} BucketsCoverInput(cal: Calendar, cs: seq<Conversation>)
    ensures |Filter(cs, InBucket(cal, Today))| + |Filter(cs, InBucket(cal, Yesterday))|
          + |Filter(cs, InBucket(cal, ThisWeek))| + |Filter(cs, InBucket(cal, Older))| == |cs|
    decreases |cs|
  {
    if cs != [] {
      BucketsCoverInput(cal, cs[1..]);
    }
  }

  /** The returned groups hold as many conversations as the input. */
  lemma GroupedCountsAll(cal: Calendar, cs: seq<Conversation>)
    ensures TotalItems(Grouped(cal, cs)) == |cs|
  {
    var all := AllGroups(cal, cs);
    TotalItemsNonEmpty(all);
    BucketsCoverInput(cal, cs);
    var a3 := all[1..][1..][1..];
    assert a3[1..] == [] && a3[0] == all[3];
    assert TotalItems(a3) == |all[3].items|;
    assert TotalItems(all[1..][1..]) == |all[2].items| + |all[3].items|;
    assert TotalItems(all[1..]) == |all[1].items| + |all[2].items| + |all[3].items|;
  }

  /** The rename controls of the sidebar. */
  class RenameState {
    var editingId: Option<string>
    var editTitle: string
    /** The calls made to `onRename`, in order. */
    var renames: seq<(string, string)>

    constructor ()
      ensures editingId == None && editTitle == "" && renames == []
    {
      editingId, editTitle, renames := None, "", [];
    }

    /** `startEdit`: editing starts on the conversation, with its current title. */
    method StartEdit(conv: Conversation)
      modifies this
      ensures editingId == Some(conv.id) && editTitle == conv.title && renames == old(renames)
    {
      editingId := Some(conv.id);
      editTitle := conv.title;
    }

    /** The input's `onChange`. */
    method SetEditTitle(value: string)
      modifies this
      ensures editTitle == value && editingId == old(editingId) && renames == old(renames)
    {
      editTitle := value;
    }

    /**
     * `confirmEdit`: renames to the trimmed title only when an id is being edited (a
     * non-empty one, as JavaScript truthiness demands) and the trimmed title is not
     * empty; editing ends in every case.
     */
    method ConfirmEdit()
      modifies this
      ensures editingId == None && editTitle == old(editTitle)
      ensures var t := Trim(old(editTitle), IsJsSpace);
        renames == old(renames) +
          (if old(editingId).Some? && old(editingId).value != "" && t != "" then [(old(editingId).value, t)] else [])
    {
      var t := Trim(editTitle, IsJsSpace);
      if editingId.Some? && editingId.value != "" && t != "" {
        renames := renames + [(editingId.value, t)];
      }
      editingId := None;
    }

    /** The X button, or Escape: editing ends and nothing is renamed. */
    method CancelEdit()
      modifies this
      ensures editingId == None && editTitle == old(editTitle) && renames == old(renames)
    {
      editingId := None;
    }

    /** The input's `onKeyDown`: Enter confirms, Escape cancels, any other key does nothing. */
    method KeyDown(key: string)
      modifies this
      ensures key == "Enter" ==>
        && editingId == None
        && renames == old(renames) +
          (if old(editingId).Some? && old(editingId).value != "" && Trim(old(editTitle), IsJsSpace) != ""
           then [(old(editingId).value, Trim(old(editTitle), IsJsSpace))] else [])
      ensures key == "Escape" ==> editingId == None && renames == old(renames)
      ensures key != "Enter" && key != "Escape" ==> unchanged(this)
      ensures editTitle == old(editTitle)
    {
      if key == "Enter" {
        ConfirmEdit();
      }
      if key == "Escape" {
        CancelEdit();
      }
    }
  }
}
