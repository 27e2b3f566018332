/** The comment store of comment/models.py: the `Comment` record, the three
    `CommentManager` queries under the model's default newest-first ordering,
    `replies` (oldest first), `is_edited` and `__str__`, as functions over the
    table of comments. */
module Comments {
  import opened Collections

  /** Timestamps are integer microseconds. */
  const OneSecond: int := 1_000_000

  /** `__str__` shows at most this many characters of the content. */
  const ExcerptLength: nat := 20

  /** One row of the comments table. `parent` holds the parent's id; `contentType`
      and `objectId` together are the generic foreign key to the commented object;
      `user` is the author as `str(user)` renders it. */
  datatype Comment = Comment(
    id: int,
    user: string,
    parent: Option<int>,
    contentType: int,
    objectId: nat,
    content: string,
    posted: int,
    edited: int)

  /** A commented object as the manager resolves it: the content type of its class
      and its primary key. */
  datatype Target = Target(contentType: int, objectId: int)

  predicate IsTopLevel(c: Comment) { c.parent.None? }

  predicate OnTarget(c: Comment, t: Target)
  {
    c.contentType == t.contentType && c.objectId == t.objectId
  }

  predicate IsTopLevelOn(c: Comment, t: Target) { OnTarget(c, t) && IsTopLevel(c) }

  /** `filter(parent=p)` compares the parent's primary key. */
  predicate IsReplyTo(c: Comment, p: Comment) { c.parent == Some(p.id) }

  // ---------------------------------------------------------------- ordering

  /** `order_by('posted_date')` is Ascending; the default `['-posted_date']` is Descending. */
  datatype Direction = Ascending | Descending

  predicate InOrder(d: Direction, a: Comment, b: Comment)
  {
    if d.Ascending? then a.posted <= b.posted else a.posted >= b.posted
  }

  predicate Sorted(s: seq<Comment>, d: Direction)
  {
    forall i, j :: 0 <= i < j < |s| ==> InOrder(d, s[i], s[j])
  }

  /** Putting a row in front of a sorted sequence that it precedes keeps it sorted. */
  lemma ConsSorted(x: Comment, t: seq<Comment>, d: Direction)
    requires Sorted(t, d)
    requires forall y :: y in t ==> InOrder(d, x, y)
    ensures Sorted([x] + t, d)
  {
  }

  function Insert(c: Comment, s: seq<Comment>, d: Direction): (r: seq<Comment>)
    requires Sorted(s, d)
    ensures Sorted(r, d)
    ensures multiset(r) == multiset(s) + multiset{c}
  {
    if s == [] then [c]
    else if InOrder(d, c, s[0]) then
      ConsSorted(c, s, d);
      [c] + s
    else
      assert s == [s[0]] + s[1..];
      var t := Insert(c, s[1..], d);
      assert forall x :: x in t ==> InOrder(d, s[0], x) by {
        forall x | x in t ensures InOrder(d, s[0], x) {
          assert x in multiset(t);
          if x != c {
            assert x in multiset(s[1..]);
            var j :| 0 <= j < |s[1..]| && s[1..][j] == x;
            assert s[j + 1] == x;
          }
        }
      }
      ConsSorted(s[0], t, d);
      [s[0]] + t
  }

  /** The rows of `s` ordered by posting time in direction `d` (ties keep no
      particular order, as in the database). */
  function OrderBy(s: seq<Comment>, d: Direction): (r: seq<Comment>)
    ensures Sorted(r, d)
    ensures multiset(r) == multiset(s)
  {
    if s == [] then []
    else
      assert s == [s[0]] + s[1..];
      Insert(s[0], OrderBy(s[1..], d), d)
  }

  /** A query: the rows satisfying `p`, in order `d`. */
  function Query(store: seq<Comment>, p: Comment -> bool, d: Direction): (r: seq<Comment>)
    ensures Sorted(r, d)
    ensures forall c :: multiset(r)[c] == if p(c) then multiset(store)[c] else 0
    ensures forall c :: c in r <==> c in store && p(c)
  {
    var r := OrderBy(Filter(store, p), d);
    assert forall c :: c in r <==> c in multiset(r);
    r
  }

  // ---------------------------------------------------------------- CommentManager

  /** `Comment.objects.all_parent_comments()`: every top-level comment, newest first. */
  function AllParentComments(store: seq<Comment>): (r: seq<Comment>)
    ensures Sorted(r, Descending)
    ensures forall c :: c in r <==> c in store && c.parent.None?
    ensures forall c :: multiset(r)[c] == if c.parent.None? then multiset(store)[c] else 0
  {
    Query(store, IsTopLevel, Descending)
  }

  /** `Comment.objects.filter_by_object(obj)`: the top-level comments on `obj`, newest first. */
  function FilterByObject(store: seq<Comment>, obj: Target): (r: seq<Comment>)
    ensures Sorted(r, Descending)
    ensures forall c :: c in r <==>
      c in store && c.contentType == obj.contentType && c.objectId == obj.objectId && c.parent.None?
    ensures forall c :: multiset(r)[c] == if IsTopLevelOn(c, obj) then multiset(store)[c] else 0
  {
    Query(store, c => IsTopLevelOn(c, obj), Descending)
  }

  /** `Comment.objects.all_comments(obj)`: every comment on `obj`, replies included, newest first. */
  function AllComments(store: seq<Comment>, obj: Target): (r: seq<Comment>)
    ensures Sorted(r, Descending)
    ensures forall c :: c in r <==>
      c in store && c.contentType == obj.contentType && c.objectId == obj.objectId
    ensures forall c :: multiset(r)[c] == if OnTarget(c, obj) then multiset(store)[c] else 0
  {
    Query(store, c => OnTarget(c, obj), Descending)
  }

  /** The top-level comments on an object are among all of its comments, with no
      row counted more often. */
  lemma FilterByObjectWithinAllComments(store: seq<Comment>, obj: Target)
    ensures multiset(FilterByObject(store, obj)) <= multiset(AllComments(store, obj))
    ensures forall c :: c in FilterByObject(store, obj) ==> c in AllComments(store, obj)
  {
    var top, all := FilterByObject(store, obj), AllComments(store, obj);
    assert forall c :: multiset(top)[c] <= multiset(all)[c];
  }

  /** ... and among all top-level comments. */
  lemma FilterByObjectWithinAllParentComments(store: seq<Comment>, obj: Target)
    ensures multiset(FilterByObject(store, obj)) <= multiset(AllParentComments(store))
  {
    var top, parents := FilterByObject(store, obj), AllParentComments(store);
    assert forall c :: multiset(top)[c] <= multiset(parents)[c];
  }

  /** What `all_comments` adds to `filter_by_object` is exactly the replies on the object. */
  lemma AllCommentsAreTopLevelOrReplies(store: seq<Comment>, obj: Target)
    ensures multiset(AllComments(store, obj)) ==
      multiset(FilterByObject(store, obj)) + multiset(Filter(store, c => OnTarget(c, obj) && c.parent.Some?))
  {
    var all, top := AllComments(store, obj), FilterByObject(store, obj);
    var rep := Filter(store, c => OnTarget(c, obj) && c.parent.Some?);
    assert forall c :: multiset(all)[c] == multiset(top)[c] + multiset(rep)[c];
  }

  /** A newly stored top-level comment on `obj` shows up in `filter_by_object(obj)`. */
  lemma NewTopLevelCommentIsListed(store: seq<Comment>, c: Comment, obj: Target)
    requires c.parent.None? && OnTarget(c, obj)
    ensures c in FilterByObject(store + [c], obj)
    ensures c in AllComments(store + [c], obj)
  {
  }

  // ---------------------------------------------------------------- Comment

  /** `comment.replies`: the comments whose parent is `self`, oldest first. */
  function Replies(store: seq<Comment>, self: Comment): (r: seq<Comment>)
    ensures Sorted(r, Ascending)
    ensures forall c :: c in r <==> c in store && c.parent == Some(self.id)
    ensures forall c :: multiset(r)[c] == if IsReplyTo(c, self) then multiset(store)[c] else 0
  {
    Query(store, c => IsReplyTo(c, self), Ascending)
  }

  /** A newly stored reply shows up in its parent's `replies`, after every earlier reply. */
  lemma NewReplyIsListed(store: seq<Comment>, c: Comment, p: Comment)
    requires c.parent == Some(p.id)
    requires forall x :: x in store ==> x.posted < c.posted
    ensures c in Replies(store + [c], p)
    ensures Replies(store + [c], p)[|Replies(store + [c], p)| - 1] == c
  {
    var r := Replies(store + [c], p);
    var i :| 0 <= i < |r| && r[i] == c;
    if i != |r| - 1 {
      var last := r[|r| - 1];
      assert last in store + [c];
      assert last != c ==> last in store;
      assert InOrder(Ascending, r[i], last);
    }
  }

  /** `comment.is_edited`: the last save lies more than one second after posting. */
  function IsEdited(c: Comment): (edited: bool)
    ensures edited ==> c.posted < c.edited
  {
    c.posted + OneSecond < c.edited
  }

  /** A freshly created comment (both timestamps equal) is not edited, nor is one
      saved exactly one second later; a save more than one second later makes it edited. */
  lemma IsEditedThreshold(c: Comment, saved: int)
    ensures c.edited == c.posted ==> !IsEdited(c)
    ensures c.edited == c.posted + OneSecond ==> !IsEdited(c)
    ensures IsEdited(c.(edited := saved)) <==> saved - c.posted > OneSecond
  {
  }

  /** Later saves never undo `is_edited`. */
  lemma IsEditedMonotone(c: Comment, saved: int)
    requires IsEdited(c) && c.edited <= saved
    ensures IsEdited(c.(edited := saved))
  {
  }

  function Min(a: int, b: int): int { if a < b then a else b }

  /** `content[:20]`: the first min(20, |content|) characters. */
  function Excerpt(s: string): (e: string)
    ensures |e| == Min(ExcerptLength, |s|)
    ensures e <= s
  {
    s[..Min(ExcerptLength, |s|)]
  }

  predicate StartsWith(s: string, prefix: string)
  {
    prefix <= s
  }

  predicate EndsWith(s: string, suffix: string)
  {
    |suffix| <= |s| && s[|s| - |suffix|..] == suffix
  }

  /** `str(comment)`: "comment by <user>: <excerpt>" for a top-level comment and
      "reply by <user>: <excerpt>" for a reply. */
  function Str(c: Comment): (r: string)
    ensures StartsWith(r, "comment by ") <==> c.parent.None?
    ensures StartsWith(r, "reply by ") <==> c.parent.Some?
    ensures EndsWith(r, c.user + ": " + Excerpt(c.content))
    ensures |r| == (if c.parent.None? then 11 else 9) + |c.user| + 2 + Min(ExcerptLength, |c.content|)
  {
    var body := c.user + ": " + Excerpt(c.content);
    var r := if c.parent.None? then "comment by " + body else "reply by " + body;
    assert r[0] == (if c.parent.None? then 'c' else 'r');
    r
  }
}
