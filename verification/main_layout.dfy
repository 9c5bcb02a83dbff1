/**
 * The navigation logic of the main page layout: which side-menu entry is
 * selected and which sub-menu is open for a pathname, the breadcrumb trail
 * (from the breadcrumb store or derived from the pathname), and the
 * announcements the current user has not dismissed yet, with the set of
 * dismissed ids kept per user in local storage.
 */
module MainLayout {
  import opened Js
  import opened Text

  // ---------------------------------------------------------------------
  // Side menu
  // ---------------------------------------------------------------------

  /**
   * `getSelectedKeys`: detail pages keep their list page selected, the
   * user-management pages keep "/admin/users" selected, and every other
   * path selects itself.
   */
  function SelectedKeys(path: string): (r: seq<string>)
    ensures |r| == 1
  {
    if StartsWith(path, "/borrows/book") then ["/borrow"]
    else if StartsWith(path, "/books/") then ["/books"]
    else if StartsWith(path, "/recommendations/") then ["/recommendations"]
    else if StartsWith(path, "/admin/") && StartsWith(path, "/admin/users") then ["/admin/users"]
    else [path]
  }

  /** `getOpenKeys`: the "admin" sub-menu is open exactly on admin pages. */
  function OpenKeys(path: string): (r: seq<string>)
    ensures StartsWith(path, "/admin/") ==> r == ["admin"]
    ensures !StartsWith(path, "/admin/") ==> r == []
  {
    if StartsWith(path, "/admin/") then ["admin"] else []
  }

  /** A prefix of a prefix is a prefix. */
  lemma PrefixTransitive(s: string, p: string, q: string)
    requires StartsWith(s, p) && StartsWith(p, q)
    ensures StartsWith(s, q)
  {
    assert s[..|q|] == s[..|p|][..|q|];
  }

  /** The selected key is always a prefix of the path. */
  lemma SelectedKeyIsPrefix(path: string)
    ensures StartsWith(path, SelectedKeys(path)[0])
  {
    if StartsWith(path, "/borrows/book") {
      PrefixTransitive(path, "/borrows/book", "/borrow");
    } else if StartsWith(path, "/books/") {
      PrefixTransitive(path, "/books/", "/books");
    } else if StartsWith(path, "/recommendations/") {
      PrefixTransitive(path, "/recommendations/", "/recommendations");
    }
  }

  /**
   * The selected key is the path itself exactly when no detail rule
   * applies: not under "/borrows/book", "/books/" or "/recommendations/",
   * and not a page strictly below "/admin/users".
   */
  lemma SelectedKeyIsPath(path: string)
    ensures SelectedKeys(path)[0] == path <==>
      (!StartsWith(path, "/borrows/book") && !StartsWith(path, "/books/")
       && !StartsWith(path, "/recommendations/")
       && (StartsWith(path, "/admin/users") ==> path == "/admin/users"))
  {
    if StartsWith(path, "/admin/users") {
      PrefixTransitive(path, "/admin/users", "/admin/");
    }
  }

  /**
   * The menu highlights an admin entry exactly when the admin sub-menu is
   * open, so a selected admin entry is never hidden in a closed sub-menu.
   */
  lemma {:induction false} SelectedAdminIffOpen(path: string)
    ensures StartsWith(SelectedKeys(path)[0], "/admin/") <==> OpenKeys(path) == ["admin"]
  {
    var key := SelectedKeys(path)[0];
    SelectedKeyIsPrefix(path);
    if StartsWith(key, "/admin/") {
      PrefixTransitive(path, key, "/admin/");
    }
    if StartsWith(path, "/admin/") {
      if StartsWith(path, "/admin/users") {
        assert key == "/admin/users";
      } else {
        assert !StartsWith(path, "/borrows/book") by {
          assert path[1] == 'a';
        }
        assert !StartsWith(path, "/books/") by {
          assert path[1] == 'a';
        }
        assert !StartsWith(path, "/recommendations/") by {
          assert path[1] == 'a';
        }
        assert key == path;
      }
    }
  }

  // ---------------------------------------------------------------------
  // Breadcrumbs
  // ---------------------------------------------------------------------

  /** A breadcrumb title: the home icon or a text label. */
  datatype Title = HomeIcon | Label(text: Json)

  /** One rendered breadcrumb; `href` is `undefined` for the current page. */
  datatype Crumb = Crumb(title: Title, href: Json)

  /** An item of the breadcrumb store: its title and its path. */
  datatype StoreItem = StoreItem(title: Json, path: Json)

  const HomeTitle: string := "首页"

  /** The first crumb of every derived trail: the home icon linking to the dashboard. */
  const HomeCrumb: Crumb := Crumb(HomeIcon, JStr("/dashboard"))

  /** The labels of known path segments. */
  const PathMap: seq<Field> := [
    Field("dashboard", JStr("仪表板")),
    Field("books", JStr("图书查询")),
    Field("borrow", JStr("借阅记录")),
    Field("recommendations", JStr("智能推荐")),
    Field("smart-assistant", JStr("智能助手")),
    Field("profile", JStr("个人信息")),
    Field("admin", JStr("管理功能")),
    Field("users", JStr("用户管理")),
    Field("import", JStr("数据导入")),
    Field("stats", JStr("统计分析")),
    Field("announcements", JStr("全局通知"))
  ]

  /** The trail shown on the borrow detail page, fixed to avoid flicker. */
  const BorrowDetailTrail: seq<Crumb> := [
    HomeCrumb,
    Crumb(Label(JStr("借阅记录")), JStr("/borrow")),
    Crumb(Label(JStr("详情")), JUndefined)
  ]

  /** A store item as a crumb: the home title becomes the icon, the path the link. */
  function StoreCrumb(item: StoreItem): (c: Crumb)
    ensures c.href == item.path
    ensures c.title.HomeIcon? <==> item.title == JStr(HomeTitle)
    ensures c.title.Label? ==> c.title.text == item.title
  {
    Crumb(if item.title == JStr(HomeTitle) then HomeIcon else Label(item.title), item.path)
  }

  /** `filter(Boolean)` on the pieces of a split: drops the empty ones, keeping order. */
  function DropEmpty(parts: seq<string>): (r: seq<string>)
    ensures |r| <= |parts|
    ensures forall i :: 0 <= i < |r| ==> r[i] != "" && r[i] in parts
    ensures forall p :: p in parts && p != "" ==> p in r
  {
    if |parts| == 0 then []
    else if parts[0] == "" then DropEmpty(parts[1..])
    else [parts[0]] + DropEmpty(parts[1..])
  }

  /** The non-empty segments of a pathname. */
  function Segments(path: string): (r: seq<string>)
    ensures forall i :: 0 <= i < |r| ==> r[i] != "" && '/' !in r[i]
  {
    DropEmpty(Split(path, '/'))
  }

  /** Looking up a key among fields whose values are all truthy gives `undefined` or a truthy value. */
  lemma {:induction false} LookupTruthy(fields: seq<Field>, key: string)
    requires forall i :: 0 <= i < |fields| ==> Truthy(fields[i].val)
    ensures Lookup(fields, key).JUndefined? || Truthy(Lookup(fields, key))
  {
    if |fields| > 0 && fields[0].key != key {
      LookupTruthy(fields[1..], key);
    }
  }

  /** `pathMap[segment] || segment`. */
  function SegmentTitle(segment: string): Json
  {
    Or(Lookup(PathMap, segment), JStr(segment))
  }

  /** A segment is labelled by its entry in the path map, else by itself. */
  lemma SegmentTitleIs(segment: string)
    ensures Lookup(PathMap, segment).JUndefined? ==> SegmentTitle(segment) == JStr(segment)
    ensures !Lookup(PathMap, segment).JUndefined? ==> SegmentTitle(segment) == Lookup(PathMap, segment)
  {
    LookupTruthy(PathMap, segment);
  }

  /** The path the loop has accumulated after the given segments: "/" before each. */
  function CrumbPath(segs: seq<string>): string
  {
    if |segs| == 0 then "" else CrumbPath(segs[..|segs| - 1]) + "/" + segs[|segs| - 1]
  }

  /** The crumb for segment `k`: linked to its accumulated path unless it is the last. */
  function SegmentCrumb(segs: seq<string>, k: nat): Crumb
    requires k < |segs|
  {
    Crumb(Label(SegmentTitle(segs[k])), if k == |segs| - 1 then JUndefined else JStr(CrumbPath(segs[..k + 1])))
  }

  /** Home followed by the crumbs of the first `n` segments. */
  function TrailPrefix(segs: seq<string>, n: nat): seq<Crumb>
    requires n <= |segs|
  {
    if n == 0 then [HomeCrumb] else TrailPrefix(segs, n - 1) + [SegmentCrumb(segs, n - 1)]
  }

  /** The trail derived from the path segments: home first, then one crumb per segment. */
  function DerivedTrail(segs: seq<string>): seq<Crumb>
  {
    TrailPrefix(segs, |segs|)
  }

  /** Position `k` of a trail prefix: home at 0, then the crumb of segment `k - 1`. */
  lemma {:induction false} TrailPrefixAt(segs: seq<string>, n: nat)
    requires n <= |segs|
    ensures |TrailPrefix(segs, n)| == n + 1
    ensures TrailPrefix(segs, n)[0] == HomeCrumb
    ensures forall k :: 1 <= k <= n ==> TrailPrefix(segs, n)[k] == SegmentCrumb(segs, k - 1)
  {
    if n > 0 {
      TrailPrefixAt(segs, n - 1);
    }
  }

  /**
   * `generateBreadcrumbs`: a non-empty store trail wins; the borrow detail
   * page has its fixed trail; otherwise the trail comes from the segments.
   */
  function Breadcrumbs(store: Option<seq<StoreItem>>, path: string): seq<Crumb>
  {
    if store.Some? && |store.value| > 0 then seq(|store.value|, i requires 0 <= i < |store.value| => StoreCrumb(store.value[i]))
    else if path == "/borrows/book" then BorrowDetailTrail
    else DerivedTrail(Segments(path))
  }

  /** The breadcrumb builder: the store map, the fixed trail, or the segment loop. */
  method GenerateBreadcrumbs(store: Option<seq<StoreItem>>, path: string) returns (items: seq<Crumb>)
    ensures items == Breadcrumbs(store, path)
  {
    if store.Some? && |store.value| > 0 {
      return seq(|store.value|, i requires 0 <= i < |store.value| => StoreCrumb(store.value[i]));
    }
    if path == "/borrows/book" {
      return BorrowDetailTrail;
    }
    items := DeriveTrail(Segments(path));
  }

  /** The `forEach` over the segments, accumulating the current path. */
  method DeriveTrail(segs: seq<string>) returns (items: seq<Crumb>)
    ensures items == DerivedTrail(segs)
  {
    items := [HomeCrumb];
    var currentPath := "";
    var index := 0;
    while index < |segs|
      invariant 0 <= index <= |segs|
      invariant currentPath == CrumbPath(segs[..index])
      invariant items == TrailPrefix(segs, index)
    {
      currentPath := currentPath + "/" + segs[index];
      assert segs[..index + 1][..index] == segs[..index];
      var isLast := index == |segs| - 1;
      var crumb := Crumb(Label(SegmentTitle(segs[index])), if isLast then JUndefined else JStr(currentPath));
      assert crumb == SegmentCrumb(segs, index);
      items := items + [crumb];
      index := index + 1;
    }
    assert segs[..index] == segs;
  }

  /** The accumulated path is "/" followed by the segments joined with "/". */
  lemma {:induction false} CrumbPathJoin(segs: seq<string>)
    requires |segs| >= 1
    ensures CrumbPath(segs) == "/" + Join(segs, "/")
    decreases |segs|
  {
    if |segs| >= 2 {
      var init := segs[..|segs| - 1];
      CrumbPathJoin(init);
      JoinLast(segs, "/");
    }
  }

  /**
   * The derived trail: home first, one crumb per segment titled by the
   * path map, each linked to "/" + the segments so far joined with "/",
   * except the last crumb, which has no link.
   */
  lemma DerivedTrailShape(segs: seq<string>)
    ensures |DerivedTrail(segs)| == |segs| + 1
    ensures DerivedTrail(segs)[0] == Crumb(HomeIcon, JStr("/dashboard"))
    ensures forall k :: 1 <= k <= |segs| ==> DerivedTrail(segs)[k].title == Label(SegmentTitle(segs[k - 1]))
    ensures forall k :: 1 <= k < |segs| ==> DerivedTrail(segs)[k].href == JStr("/" + Join(segs[..k], "/"))
    ensures |segs| > 0 ==> DerivedTrail(segs)[|segs|].href == JUndefined
  {
    var t := DerivedTrail(segs);
    TrailPrefixAt(segs, |segs|);
    forall k | 1 <= k < |segs|
      ensures t[k].href == JStr("/" + Join(segs[..k], "/"))
    {
      assert t[k].href == JStr(CrumbPath(segs[..k]));
      CrumbPathJoin(segs[..k]);
    }
  }

  /** A store trail is shown item for item, and only when it is non-empty. */
  lemma StoreTrailWins(store: seq<StoreItem>, path: string)
    requires |store| > 0
    ensures |Breadcrumbs(Some(store), path)| == |store|
    ensures forall i :: 0 <= i < |store| ==> Breadcrumbs(Some(store), path)[i].href == store[i].path
    ensures forall i :: 0 <= i < |store| ==>
      (Breadcrumbs(Some(store), path)[i].title.HomeIcon? <==> store[i].title == JStr(HomeTitle))
    ensures Breadcrumbs(Some([]), path) == Breadcrumbs(None, path)
  {
  }

  /** Dropping empty pieces keeps pieces that are all non-empty as they are. */
  lemma {:induction false} DropEmptyKeeps(parts: seq<string>)
    requires forall i :: 0 <= i < |parts| ==> parts[i] != ""
    ensures DropEmpty(parts) == parts
  {
    if |parts| > 0 {
      DropEmptyKeeps(parts[1..]);
      assert parts == [parts[0]] + parts[1..];
    }
  }

  /**
   * For a pathname with a leading "/" and no empty segment after it, the
   * path accumulated over all segments is the pathname itself: the last
   * crumb stands for the current page.
   */
  lemma {:induction false} TrailEndsAtPath(path: string)
    requires |Split(path, '/')| >= 2 && Split(path, '/')[0] == ""
    requires forall i :: 1 <= i < |Split(path, '/')| ==> Split(path, '/')[i] != ""
    ensures CrumbPath(Segments(path)) == path
  {
    var parts := Split(path, '/');
    var rest := parts[1..];
    DropEmptyKeeps(rest);
    assert parts == [""] + rest;
    assert Segments(path) == rest;
    CrumbPathJoin(rest);
    JoinSplit(path, '/');
    assert Join(parts, "/") == "" + "/" + Join(rest, "/");
  }

  // ---------------------------------------------------------------------
  // Announcements
  // ---------------------------------------------------------------------

  /** An active announcement as the layout receives it. */
  datatype Announcement = Announcement(id: Json, title: Json, content: Json)

  /** No id occurs twice: the contents of a JavaScript `Set` in insertion order. */
  predicate Distinct(ids: seq<Json>)
  {
    forall i, j :: 0 <= i < j < |ids| ==> ids[i] != ids[j]
  }

  /** `set.add(id)`: a new id goes to the end, a known one changes nothing. */
  function Added(ids: seq<Json>, id: Json): (r: seq<Json>)
    ensures id in r
    ensures forall x :: x in r <==> x in ids || x == id
    ensures Distinct(ids) ==> Distinct(r)
    ensures |ids| <= |r| && r[..|ids|] == ids
  {
    if id in ids then ids else ids + [id]
  }

  /** `new Set(list)`: the list with repeated ids dropped after their first occurrence. */
  function DedupInto(acc: seq<Json>, xs: seq<Json>): (r: seq<Json>)
    ensures Distinct(acc) ==> Distinct(r)
    ensures forall x :: x in r <==> x in acc || x in xs
    decreases |xs|
  {
    if |xs| == 0 then acc else DedupInto(Added(acc, xs[0]), xs[1..])
  }

  /** The read ids restored from a stored list. */
  function Restored(stored: seq<Json>): (r: seq<Json>)
    ensures Distinct(r)
    ensures forall x :: x in r <==> x in stored
  {
    DedupInto([], stored)
  }

  /** Restoring a list without repetitions gives it back unchanged. */
  lemma {:induction false} DedupDistinct(acc: seq<Json>, xs: seq<Json>)
    requires Distinct(acc + xs)
    ensures DedupInto(acc, xs) == acc + xs
    decreases |xs|
  {
    if |xs| > 0 {
      forall i | 0 <= i < |acc|
        ensures acc[i] != xs[0]
      {
        assert (acc + xs)[i] == acc[i];
        assert (acc + xs)[|acc|] == xs[0];
      }
      assert Added(acc, xs[0]) == acc + [xs[0]];
      assert acc + [xs[0]] + xs[1..] == acc + xs;
      DedupDistinct(acc + [xs[0]], xs[1..]);
    }
  }

  /** The identifier of a logged-in user: reader id, else id, else username. */
  function UserId(user: Json): Json
    requires Truthy(user)
  {
    Or(Or(Prop(user, "readerId").value, Prop(user, "id").value), Prop(user, "username").value)
  }

  /** The local-storage key of a user's read announcements. */
  function StorageKey(user: Json): (k: string)
    requires Truthy(user)
    ensures StartsWith(k, "read_announcements_")
  {
    "read_announcements_" + JsString(UserId(user))
  }

  /** The announcements still shown: those whose id has not been read. */
  function Visible(anns: seq<Announcement>, readIds: seq<Json>): (r: seq<Announcement>)
    ensures |r| <= |anns|
    ensures forall a :: a in r <==> a in anns && a.id !in readIds
  {
    if |anns| == 0 then []
    else if anns[0].id in readIds then Visible(anns[1..], readIds)
    else [anns[0]] + Visible(anns[1..], readIds)
  }

  /** Filtering keeps the relative order: it distributes over concatenation. */
  lemma {:induction false} VisibleKeepsOrder(xs: seq<Announcement>, ys: seq<Announcement>, readIds: seq<Json>)
    ensures Visible(xs + ys, readIds) == Visible(xs, readIds) + Visible(ys, readIds)
    decreases |xs|
  {
    if |xs| > 0 {
      assert (xs + ys)[0] == xs[0];
      assert (xs + ys)[1..] == xs[1..] + ys;
      VisibleKeepsOrder(xs[1..], ys, readIds);
    } else {
      assert xs + ys == ys;
    }
  }

  /** Reading more ids only hides more: the shown list shrinks. */
  lemma MoreReadShowsLess(anns: seq<Announcement>, readIds: seq<Json>, id: Json)
    ensures forall a :: a in Visible(anns, Added(readIds, id)) ==> a in Visible(anns, readIds)
    ensures forall a :: a in Visible(anns, Added(readIds, id)) ==> a.id != id
    ensures forall a :: a in Visible(anns, readIds) && a.id != id ==> a in Visible(anns, Added(readIds, id))
  {
  }

  /**
   * The layout state behind the announcement bar: the ids the current
   * user has read, and the browser's local storage of read-id lists.
   */
  class ReadAnnouncements {
    var readIds: seq<Json>
    var storage: map<string, seq<Json>>

    ghost predicate Valid()
      reads this
    {
      Distinct(readIds)
    }

    constructor(storage0: map<string, seq<Json>>)
      ensures Valid() && readIds == [] && storage == storage0
    {
      readIds := [];
      storage := storage0;
    }

    /**
     * Restores the user's read ids from local storage; without a user
     * nothing changes, and a user with no stored list has read nothing.
     */
    method Load(user: Json)
      requires Valid()
      modifies this
      ensures Valid()
      ensures !Truthy(user) ==> readIds == old(readIds)
      ensures Truthy(user) ==> readIds == (if StorageKey(user) in storage then Restored(storage[StorageKey(user)]) else [])
      ensures storage == old(storage)
    {
      if !Truthy(user) {
        return;
      }
      var key := StorageKey(user);
      if key in storage {
        readIds := Restored(storage[key]);
      } else {
        readIds := [];
      }
    }

    /**
     * `handleCloseAnnouncement`: without a user nothing changes; otherwise
     * the id joins the read set and the whole set is written to the
     * user's storage entry.
     */
    method Close(user: Json, id: Json)
      requires Valid()
      modifies this
      ensures Valid()
      ensures !Truthy(user) ==> readIds == old(readIds) && storage == old(storage)
      ensures Truthy(user) ==>
        (readIds == Added(old(readIds), id) && storage == old(storage)[StorageKey(user) := readIds])
    {
      if !Truthy(user) {
        return;
      }
      var key := StorageKey(user);
      readIds := Added(readIds, id);
      storage := storage[key := readIds];
    }
  }

  /**
   * Closing then reloading for the same user restores exactly the read
   * ids the close produced, and the closed announcement stays hidden.
   */
  lemma CloseThenLoad(readIds: seq<Json>, id: Json, anns: seq<Announcement>)
    requires Distinct(readIds)
    ensures Restored(Added(readIds, id)) == Added(readIds, id)
    ensures forall a :: a in Visible(anns, Restored(Added(readIds, id))) ==> a.id != id
  {
    DedupDistinct([], Added(readIds, id));
    assert [] + Added(readIds, id) == Added(readIds, id);
  }
}
