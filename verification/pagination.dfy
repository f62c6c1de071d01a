/** Fail-closed pagination of `configure-live-imports.py`: an inventory comes back whole or not at all. */
module Pagination {
  import opened Common

  const SIZE: nat := 10
  const MAX_ITEMS: nat := 100
  const MAX_PAGES: nat := 20
  const MAX_CURSOR: nat := 4096

  /** A metadata value as Python sees it. `Like(n)` is a float or boolean that equals the integer `n`. */
  datatype Field = Absent | Null | Int(n: int) | Like(of: int) | Text(s: string) | Other

  datatype Info = NoInfo | BadInfo | Info(totalPages: Field, page: Field, totalCount: Field, perPage: Field, cursor: Field)

  /** The items and metadata of a reply, or a reply already refused for its transport or its shape. */
  datatype Answer<+T> = Failed | Answer(items: seq<T>, info: Info)

  predicate Missing(f: Field) {
    f.Absent? || f.Null?
  }

  predicate Equals(f: Field, n: int) {
    f == Int(n) || f == Like(n)
  }

  // ---- numbered pages ----

  datatype Numbered<+T> = Refused | Page(items: seq<T>, total: nat)

  function Max(a: int, b: int): int {
    if a < b then b else a
  }

  function PageCount(items: nat): (pages: nat)
    ensures pages >= 1 && (pages - 1) * SIZE <= items <= pages * SIZE
    ensures items > 0 ==> (pages - 1) * SIZE < items
  {
    Max(1, (items + SIZE - 1) / SIZE)
  }

  /** What the metadata of a reply says the number of pages is. */
  function Claimed(info: Info): Field
    requires info.Info?
  {
    if !Missing(info.totalPages) then info.totalPages
    else if info.totalCount.Int? && info.totalCount.n >= 0 && info.perPage == Int(SIZE)
    then Int(PageCount(info.totalCount.n))
    else Other
  }

  function NumberedPage<T>(page: nat, a: Answer<T>): (r: Numbered<T>)
    ensures r.Page? ==> a.Answer? && r.items == a.items && 1 <= r.total <= MAX_PAGES
  {
    if a.Failed? || |a.items| > MAX_ITEMS || a.info.BadInfo? then Refused
    else if a.info.NoInfo? then if |a.items| >= SIZE then Refused else Page(a.items, 1)
    else
      var pages := Claimed(a.info);
      if pages == Int(0) && Equals(a.info.page, page) && page == 1 && a.items == [] then Page(a.items, 1)
      else if pages.Int? && a.info.page == Int(page) && 1 <= pages.n <= MAX_PAGES && page <= pages.n
      then Page(a.items, pages.n)
      else Refused
  }

  /** A reply that names a page names the one asked for, and a reply without metadata is short, or it is refused. */
  lemma OtherPageIsRefused<T>(page: nat, a: Answer<T>)
    requires a.Answer?
    requires (a.info.Info? && a.info.page != Int(page) && a.info.page != Like(page)) || (a.info.NoInfo? && |a.items| >= 10)
    ensures NumberedPage(page, a).Refused?
  {
  }

  /** This page is accepted and announces this total. */
  predicate Announces<T>(server: nat -> Answer<T>, page: nat, total: nat) {
    NumberedPage(page, server(page)).Page? && NumberedPage(page, server(page)).total == total
  }

  predicate Announced<T>(server: nat -> Answer<T>, pages: nat, total: nat) {
    forall page | 1 <= page <= pages :: Announces(server, page, total)
  }

  /** Every page up to the announced total is accepted and announces the same total. */
  predicate Consistent<T>(server: nat -> Answer<T>, total: nat) {
    Announced(server, total, total)
  }

  /** The items of the first pages, in order. */
  function Gathered<T>(server: nat -> Answer<T>, pages: nat, total: nat): seq<T>
    requires Announced(server, pages, total)
  {
    if pages == 0 then []
    else assert Announces(server, pages, total); Gathered(server, pages - 1, total) + server(pages).items
  }

  /** So a listing in which any reply is about another page fails. */
  lemma MixedPagesAreRefused<T>(server: nat -> Answer<T>, page: nat, total: nat)
    requires 1 <= page <= total <= MAX_PAGES && server(page).Answer? && server(page).info.Info?
    requires server(page).info.page != Int(page) && server(page).info.page != Like(page)
    ensures !Consistent(server, total)
  {
    OtherPageIsRefused(page, server(page));
    assert !Announces(server, page, total);
  }

  /** Succeeds exactly when some total is announced consistently by each of its pages, then returns those
      pages in order, and never asks more than twenty times. The reply to a request is any function of it. */
  method ListNumbered<T(!new)>(server: nat -> Answer<T>) returns (r: Option<seq<T>>, requests: nat)
    ensures r.Some? <==> exists total | 1 <= total <= MAX_PAGES :: Consistent(server, total)
    ensures forall total | 1 <= total <= MAX_PAGES && Consistent(server, total) :: r == Some(Gathered(server, total, total))
    ensures 1 <= requests <= MAX_PAGES
  {
    var first := NumberedPage(1, server(1));
    requests := 1;
    if first.Refused? {
      assert forall total | 1 <= total && Consistent(server, total) :: Announces(server, 1, total);
      return None, 1;
    }
    OneTotal(server, first.total);
    var result := first.items;
    var page := 2;
    while page <= first.total
      invariant 2 <= page <= first.total + 1 && requests == page - 1
      invariant Announced(server, page - 1, first.total)
      invariant result == Gathered(server, page - 1, first.total)
    {
      var next := NumberedPage(page, server(page));
      requests := requests + 1;
      if next.Refused? || next.total != first.total {
        assert !Announces(server, page, first.total);
        return None, requests;
      }
      result := result + next.items;
      page := page + 1;
    }
    assert Consistent(server, first.total);
    r := Some(result);
  }

  lemma OneTotal<T>(server: nat -> Answer<T>, total: nat)
    requires Announces(server, 1, total)
    ensures forall other | 1 <= other && Consistent(server, other) :: other == total
  {
    forall other | 1 <= other && Consistent(server, other) ensures other == total {
      assert Announces(server, 1, other);
    }
  }

  // ---- a server that tells the truth about a fixed inventory ----

  function Slice<T>(all: seq<T>, page: nat): seq<T>
    requires 1 <= page
  {
    var n := |all|;
    var from := (page - 1) * SIZE;
    if from >= n then [] else if page * SIZE >= n then all[from..] else all[from..page * SIZE]
  }

  /** Whatever the metadata says is so; it need not say anything. */
  predicate Truthful(info: Info, count: nat) {
    info.Info? ==>
      && (info.totalPages.Int? ==> info.totalPages.n == PageCount(count) || (count == 0 && info.totalPages.n == 0))
      && (info.totalCount.Int? ==> info.totalCount.n == count)
  }

  ghost predicate Honest<T(!new)>(server: nat -> Answer<T>, all: seq<T>) {
    forall page | 1 <= page :: server(page).Answer? ==> server(page).items == Slice(all, page) && Truthful(server(page).info, |all|)
  }

  /** One of the metadata forms the client accepts. */
  predicate Accepted(info: Info, page: nat, count: nat) {
    || (info.NoInfo? && count < SIZE)
    || (info.Info? && info.page == Int(page) && info.totalPages == Int(PageCount(count)))
    || (info.Info? && Equals(info.page, page) && info.totalPages == Int(0) && count == 0)
    || (info.Info? && info.page == Int(page) && Missing(info.totalPages) && info.totalCount == Int(count) && info.perPage == Int(SIZE))
  }

  lemma {:induction false} GatheredSlices<T(!new)>(server: nat -> Answer<T>, all: seq<T>, pages: nat, total: nat)
    requires Honest(server, all) && Announced(server, pages, total) && (pages - 1) * SIZE <= |all|
    ensures Gathered(server, pages, total) == if pages * SIZE >= |all| then all else all[..pages * SIZE]
    decreases pages
  {
    if pages > 0 {
      GatheredSlices(server, all, pages - 1, total);
      assert Announces(server, pages, total);
      if pages == 1 {
        assert Gathered(server, 0, total) == [];
      } else {
        assert Gathered(server, pages - 1, total) == all[..(pages - 1) * SIZE];
      }
    }
  }

  lemma TotalIsTrue<T(!new)>(server: nat -> Answer<T>, all: seq<T>)
    requires Honest(server, all) && NumberedPage(1, server(1)).Page?
    ensures NumberedPage(1, server(1)).total == PageCount(|all|)
  {
  }

  /** Complete or refused: from a truthful server, whatever else its metadata holds or omits, a listing that
      succeeds is the whole inventory in order. */
  lemma NeverTruncated<T(!new)>(server: nat -> Answer<T>, all: seq<T>, total: nat)
    requires Honest(server, all) && 1 <= total && Consistent(server, total)
    ensures Gathered(server, total, total) == all
  {
    assert Announces(server, 1, total);
    TotalIsTrue(server, all);
    GatheredSlices(server, all, total, total);
  }

  /** And complete within the bound: an inventory of up to two hundred items is listed under every accepted
      form of metadata, which may differ from page to page. */
  lemma CompleteUpToTheBound<T(!new)>(server: nat -> Answer<T>, all: seq<T>)
    requires Honest(server, all) && |all| <= SIZE * MAX_PAGES
    requires forall page | 1 <= page <= PageCount(|all|) :: server(page).Answer? && Accepted(server(page).info, page, |all|)
    ensures 1 <= PageCount(|all|) <= MAX_PAGES && Consistent(server, PageCount(|all|))
    ensures Gathered(server, PageCount(|all|), PageCount(|all|)) == all
  {
    var total := PageCount(|all|);
    forall page | 1 <= page <= total
      ensures Announces(server, page, total)
    {
      assert server(page).items == Slice(all, page) && |Slice(all, page)| <= SIZE;
    }
    assert Consistent(server, total);
    NeverTruncated(server, all, total);
  }

  // ---- cursors ----

  datatype Linked<+T> = Rejected | Part(items: seq<T>, next: Option<string>)

  function CursorPage<T>(a: Answer<T>): (r: Linked<T>)
    ensures r.Part? ==> a.Answer? && r.items == a.items && |r.items| <= SIZE
    ensures r.Part? && r.next.None? ==> |r.items| < SIZE
    ensures r.Part? && r.next.Some? ==> 0 < |r.next.value| <= MAX_CURSOR
  {
    if a.Failed? || |a.items| > MAX_ITEMS || a.info.BadInfo? then Rejected
    else if a.info.NoInfo? then if |a.items| >= SIZE then Rejected else Part(a.items, None)
    else if !a.info.perPage.Absent? && a.info.perPage != Int(SIZE) then Rejected
    else if !Missing(a.info.cursor) && (!a.info.cursor.Text? || |a.info.cursor.s| > MAX_CURSOR) then Rejected
    else if |a.items| > SIZE then Rejected
    else if a.info.cursor.Text? && a.info.cursor.s != "" then Part(a.items, Some(a.info.cursor.s))
    else if |a.items| >= SIZE then Rejected
    else Part(a.items, None)
  }

  /** How the k-th request comes back when it carries this cursor; the server may answer each request as it
      likes. */
  type Pages<!T> = (nat, Option<string>) -> Linked<T>

  function AsRead<T>(server: (nat, Option<string>) -> Answer<T>): Pages<T> {
    (k: nat, cursor: Option<string>) => CursorPage(server(k, cursor))
  }

  /** Listing from the k-th request on. */
  function Follow<T>(pages: Pages<T>, k: nat, cursor: Option<string>, seen: set<string>): Option<seq<T>>
    requires k < MAX_PAGES
    decreases MAX_PAGES - k
  {
    match pages(k, cursor)
    case Rejected => None
    case Part(items, None) => Some(items)
    case Part(items, Some(c)) =>
      if c in seen || k + 1 == MAX_PAGES then None
      else Joined(items, Follow(pages, k + 1, Some(c), seen + {c}))
  }

  function Joined<T>(items: seq<T>, more: Option<seq<T>>): Option<seq<T>> {
    if more.None? then None else Some(items + more.value)
  }

  /** The rest of a listing that holds `result` and has read `next` in the reply before the k-th request. */
  function Ending<T>(pages: Pages<T>, k: nat, next: Option<string>, seen: set<string>, result: seq<T>): Option<seq<T>>
    requires k <= MAX_PAGES
  {
    if next.None? then Some(result)
    else if next.value in seen || k == MAX_PAGES then None
    else Joined(result, Follow(pages, k, next, seen + {next.value}))
  }

  lemma EndingOne<T>(pages: Pages<T>, k: nat, next: string, seen: set<string>, result: seq<T>)
    requires k < MAX_PAGES && next !in seen
    ensures Ending(pages, k, Some(next), seen, result) ==
            match pages(k, Some(next))
            case Rejected => None
            case Part(items, after) => Ending(pages, k + 1, after, seen + {next}, result + items)
  {
    match pages(k, Some(next)) {
      case Part(items, Some(c)) =>
        if c !in seen + {next} && k + 1 < MAX_PAGES {
          var more := Follow(pages, k + 1, Some(c), seen + {next} + {c});
          assert more.Some? ==> result + (items + more.value) == result + items + more.value;
        }
      case _ =>
    }
  }

  method ListByCursor<T>(server: (nat, Option<string>) -> Answer<T>) returns (r: Option<seq<T>>, requests: nat)
    ensures r == Follow(AsRead(server), 0, None, {})
    ensures 1 <= requests <= MAX_PAGES
  {
    ghost var pages := AsRead(server);
    var part := CursorPage(server(0, None));
    requests := 1;
    if part.Rejected? { return None, 1; }
    var result, next := part.items, part.next;
    var seen: set<string> := {};
    var page := 2;
    while page <= MAX_PAGES
      invariant 2 <= page <= MAX_PAGES + 1 && requests == page - 1
      invariant Follow(pages, 0, None, {}) == Ending(pages, page - 1, next, seen, result)
    {
      if next.None? { return Some(result), requests; }
      if next.value in seen { return None, requests; }
      EndingOne(pages, page - 1, next.value, seen, result);
      seen := seen + {next.value};
      part := CursorPage(server(page - 1, next));
      requests := requests + 1;
      if part.Rejected? { return None, requests; }
      result, next := result + part.items, part.next;
      page := page + 1;
    }
    if next.Some? { return None, requests; }
    r := Some(result);
  }

  function Cursor(cursors: seq<string>, i: nat): Option<string>
    requires i <= |cursors|
  {
    if i == 0 then None else Some(cursors[i - 1])
  }

  /** From the k-th request on, each page names the cursor of the next, no cursor comes twice, and the last
      page, within the bound, names none. */
  ghost predicate Chain<T>(pages: Pages<T>, k: nat, cursors: seq<string>, parts: seq<seq<T>>) {
    && k <= |cursors| < MAX_PAGES && |parts| == |cursors| + 1
    && (forall i, j | 0 <= i < j < |cursors| :: cursors[i] != cursors[j])
    && (forall i | k <= i < |cursors| :: pages(i, Cursor(cursors, i)) == Part(parts[i], Some(cursors[i])))
    && pages(|cursors|, Cursor(cursors, |cursors|)) == Part(parts[|cursors|], None)
  }

  function Concat<T>(parts: seq<seq<T>>): seq<T> {
    if parts == [] then [] else parts[0] + Concat(parts[1..])
  }

  function Set(cursors: seq<string>): set<string> {
    set c | c in cursors
  }

  lemma ConcatFrom<T>(parts: seq<seq<T>>, k: nat)
    requires k < |parts|
    ensures Concat(parts[k..]) == parts[k] + Concat(parts[k + 1..])
    ensures k + 1 == |parts| ==> Concat(parts[k..]) == parts[k]
  {
    assert parts[k..][1..] == parts[k + 1..];
  }

  /** A chain is followed to its end. */
  lemma {:induction false} ChainIsFollowed<T>(pages: Pages<T>, k: nat, cursors: seq<string>, parts: seq<seq<T>>)
    requires Chain(pages, k, cursors, parts)
    ensures Follow(pages, k, Cursor(cursors, k), Set(cursors[..k])) == Some(Concat(parts[k..]))
    decreases |cursors| - k
  {
    ConcatFrom(parts, k);
    if k < |cursors| {
      ChainIsFollowed(pages, k + 1, cursors, parts);
      assert Set(cursors[..k + 1]) == Set(cursors[..k]) + {cursors[k]};
      assert cursors[k] !in cursors[..k];
    }
  }

  /** Each of the requests so far named the next cursor, and no cursor came twice. */
  ghost predicate Links<T>(pages: Pages<T>, cursors: seq<string>, parts: seq<seq<T>>) {
    && |parts| == |cursors| < MAX_PAGES
    && (forall i, j | 0 <= i < j < |cursors| :: cursors[i] != cursors[j])
    && (forall i | 0 <= i < |cursors| :: pages(i, Cursor(cursors, i)) == Part(parts[i], Some(cursors[i])))
  }

  lemma LinksExtend<T>(pages: Pages<T>, cursors: seq<string>, parts: seq<seq<T>>, items: seq<T>, next: string)
    requires Links(pages, cursors, parts) && |cursors| + 1 < MAX_PAGES && next !in cursors
    requires pages(|cursors|, Cursor(cursors, |cursors|)) == Part(items, Some(next))
    ensures Links(pages, cursors + [next], parts + [items])
  {
    assert forall i | 0 <= i <= |cursors| :: Cursor(cursors + [next], i) == Cursor(cursors, i);
  }

  lemma LinksEnd<T>(pages: Pages<T>, cursors: seq<string>, parts: seq<seq<T>>, items: seq<T>)
    requires Links(pages, cursors, parts) && pages(|cursors|, Cursor(cursors, |cursors|)) == Part(items, None)
    ensures Chain(pages, 0, cursors, parts + [items])
  {
  }

  lemma FollowOne<T>(pages: Pages<T>, cursors: seq<string>)
    requires |cursors| < MAX_PAGES && Follow(pages, |cursors|, Cursor(cursors, |cursors|), Set(cursors)).Some?
    ensures var page := pages(|cursors|, Cursor(cursors, |cursors|));
            && page.Part?
            && (page.next.Some? ==>
                  var more := cursors + [page.next.value];
                  page.next.value !in cursors && |more| < MAX_PAGES && Follow(pages, |more|, Cursor(more, |more|), Set(more)).Some?)
  {
    var page := pages(|cursors|, Cursor(cursors, |cursors|));
    if page.next.Some? {
      assert Set(cursors + [page.next.value]) == Set(cursors) + {page.next.value};
    }
  }

  /** Conversely, a listing that succeeds has followed a chain. */
  lemma {:induction false} FollowIsChain<T>(pages: Pages<T>, cursors: seq<string>, parts: seq<seq<T>>)
    returns (all: seq<string>, each: seq<seq<T>>)
    requires Links(pages, cursors, parts)
    requires Follow(pages, |cursors|, Cursor(cursors, |cursors|), Set(cursors)).Some?
    ensures Chain(pages, 0, all, each)
    decreases MAX_PAGES - |cursors|
  {
    FollowOne(pages, cursors);
    var page := pages(|cursors|, Cursor(cursors, |cursors|));
    if page.next.None? {
      all, each := cursors, parts + [page.items];
      LinksEnd(pages, cursors, parts, page.items);
    } else {
      LinksExtend(pages, cursors, parts, page.items, page.next.value);
      all, each := FollowIsChain(pages, cursors + [page.next.value], parts + [page.items]);
    }
  }

  /** Cursor mode is complete or refused: it succeeds exactly when a chain of distinct cursors leads from the
      first request, in at most twenty, to a page that names none and is shorter than a full one, and it then
      returns the pages of that chain in order. */
  lemma CursorListingIff<T(!new)>(server: (nat, Option<string>) -> Answer<T>)
    ensures var pages := AsRead(server); var r := Follow(pages, 0, None, {});
            && (r.Some? <==> exists cursors, parts :: Chain(pages, 0, cursors, parts))
            && (forall cursors, parts | Chain(pages, 0, cursors, parts) ::
                  r == Some(Concat(parts)) && |parts| <= MAX_PAGES && |parts[|cursors|]| < SIZE)
  {
    var pages := AsRead(server);
    forall cursors, parts | Chain(pages, 0, cursors, parts)
      ensures Follow(pages, 0, None, {}) == Some(Concat(parts)) && |parts[|cursors|]| < SIZE
    {
      ChainIsFollowed(pages, 0, cursors, parts);
      var last := |cursors|;
      assert CursorPage(server(last, Cursor(cursors, last))) == pages(last, Cursor(cursors, last));
      assert Set(cursors[..0]) == {} && parts[0..] == parts;
    }
    if Follow(pages, 0, None, {}).Some? {
      assert Set([]) == {};
      var cursors, parts := FollowIsChain(pages, [], []);
    }
  }
}
