/** The cursor-driven list walk with the name/ID allow-list filter that
    `ListLoadBalancers`, `ListT0` and `ListT1` share. */
module Pagination {
  import opened Common
  import opened Records

  /** The allow-list test: an empty list keeps everything, otherwise the display
      name or the id must be listed. */
  predicate Include(name: string, id: string, filters: seq<string>) {
    |filters| == 0 || name in filters || id in filters
  }

  /** The entries of one page that pass the filter, in page order. */
  function Kept<T>(items: seq<T>, filters: seq<string>, nameOf: T -> string, idOf: T -> string): seq<T>
    decreases |items|
  {
    if items == [] then []
    else
      var last := items[|items| - 1];
      Kept(items[..|items| - 1], filters, nameOf, idOf)
        + (if Include(nameOf(last), idOf(last), filters) then [last] else [])
  }

  /** An entry is kept exactly when it is on the page and passes the filter. */
  lemma {:induction false} KeptMembers<T>(items: seq<T>, filters: seq<string>, nameOf: T -> string, idOf: T -> string, x: T)
    ensures x in Kept(items, filters, nameOf, idOf) <==> x in items && Include(nameOf(x), idOf(x), filters)
    decreases |items|
  {
    if items != [] {
      var init := items[..|items| - 1];
      KeptMembers(init, filters, nameOf, idOf, x);
      assert items == init + [items[|items| - 1]];
    }
  }

  /** Filtering keeps order: the kept entries of two consecutive parts follow each other. */
  lemma {:induction false} KeptConcat<T>(a: seq<T>, b: seq<T>, filters: seq<string>, nameOf: T -> string, idOf: T -> string)
    ensures Kept(a + b, filters, nameOf, idOf) == Kept(a, filters, nameOf, idOf) + Kept(b, filters, nameOf, idOf)
    decreases |b|
  {
    if b == [] {
      assert a + b == a;
    } else {
      var init := b[..|b| - 1];
      assert (a + b)[..|a + b| - 1] == a + init;
      KeptConcat(a, init, filters, nameOf, idOf);
    }
  }

  /** With an empty allow-list nothing is filtered out. */
  lemma {:induction false} KeptAllWhenNoFilter<T>(items: seq<T>, nameOf: T -> string, idOf: T -> string)
    ensures Kept(items, [], nameOf, idOf) == items
    decreases |items|
  {
    if items != [] {
      KeptAllWhenNoFilter(items[..|items| - 1], nameOf, idOf);
      assert items[..|items| - 1] + [items[|items| - 1]] == items;
    }
  }

  /** The walk from `cursor` ends within `n` further pages: some call fails, or the
      last page carries no cursor. (The source loops for as long as the server hands
      out cursors; a server that never stops is outside the model.) */
  predicate ChainEnds<T>(list: Option<string> -> Result<Page<T>>, cursor: Option<string>, n: nat)
    decreases n
  {
    match list(cursor)
    case Err(_) => true
    case Ok(p) => p.cursor.None? || (n > 0 && ChainEnds(list, p.cursor, n - 1))
  }

  /** The pages a walk from `cursor` fetches, or the first failure. */
  function Pages<T>(list: Option<string> -> Result<Page<T>>, cursor: Option<string>, n: nat): Result<seq<Page<T>>>
    requires ChainEnds(list, cursor, n)
    decreases n
  {
    match list(cursor)
    case Err(e) => Err(e)
    case Ok(p) =>
      if p.cursor.None? then Ok([p])
      else match Pages(list, p.cursor, n - 1)
           case Err(e) => Err(e)
           case Ok(ps) => Ok([p] + ps)
  }

  /** `ps` is a chain of pages: the first is what `cursor` gives, each next one is what
      the previous page's cursor gives, and only the last page has no cursor. */
  ghost predicate FollowsCursors<T>(list: Option<string> -> Result<Page<T>>, cursor: Option<string>, ps: seq<Page<T>>) {
    && |ps| > 0
    && list(cursor) == Ok(ps[0])
    && (forall i :: 0 <= i < |ps| - 1 ==> ps[i].cursor.Some? && list(ps[i].cursor) == Ok(ps[i + 1]))
    && ps[|ps| - 1].cursor.None?
  }

  /** The fetched pages are exactly the chain of cursors, in both directions. */
  lemma {:induction false} PagesFollowCursors<T>(list: Option<string> -> Result<Page<T>>, cursor: Option<string>, n: nat, ps: seq<Page<T>>)
    requires ChainEnds(list, cursor, n)
    ensures Pages(list, cursor, n) == Ok(ps) <==> FollowsCursors(list, cursor, ps)
    decreases n
  {
    match list(cursor)
    case Err(_) =>
    case Ok(p) =>
      if p.cursor.Some? {
        if |ps| > 0 {
          PagesFollowCursors(list, p.cursor, n - 1, ps[1..]);
          if FollowsCursors(list, cursor, ps) {
            assert |ps| > 1;
            assert FollowsCursors(list, p.cursor, ps[1..]) by {
              forall i | 0 <= i < |ps[1..]| - 1
                ensures ps[1..][i].cursor.Some? && list(ps[1..][i].cursor) == Ok(ps[1..][i + 1])
              {
                assert ps[1..][i] == ps[i + 1];
              }
            }
            assert [ps[0]] + ps[1..] == ps;
          }
          if Pages(list, cursor, n) == Ok(ps) {
            assert ps == [p] + ps[1..];
            assert FollowsCursors(list, p.cursor, ps[1..]);
            forall i | 0 <= i < |ps| - 1
              ensures ps[i].cursor.Some? && list(ps[i].cursor) == Ok(ps[i + 1])
            {
              if i > 0 { assert ps[i] == ps[1..][i - 1]; }
            }
          }
        }
      } else if FollowsCursors(list, cursor, ps) {
        assert ps[0] == p;
        assert ps[0].cursor.None?;
        assert ps == [p];
      }
  }

  /** The kept entries of a sequence of pages, page after page. */
  function ConcatKept<T>(ps: seq<Page<T>>, filters: seq<string>, nameOf: T -> string, idOf: T -> string): seq<T>
    decreases |ps|
  {
    if ps == [] then [] else Kept(ps[0].results, filters, nameOf, idOf) + ConcatKept(ps[1..], filters, nameOf, idOf)
  }

  /** An entry is in the concatenation exactly when some page holds it and it passes the filter. */
  lemma {:induction false} ConcatKeptMembers<T>(ps: seq<Page<T>>, filters: seq<string>, nameOf: T -> string, idOf: T -> string, x: T)
    ensures x in ConcatKept(ps, filters, nameOf, idOf) <==>
            Include(nameOf(x), idOf(x), filters) && exists i :: 0 <= i < |ps| && x in ps[i].results
    decreases |ps|
  {
    if ps != [] {
      ConcatKeptMembers(ps[1..], filters, nameOf, idOf, x);
      KeptMembers(ps[0].results, filters, nameOf, idOf, x);
      if exists i :: 0 <= i < |ps| && x in ps[i].results {
        var i :| 0 <= i < |ps| && x in ps[i].results;
        if i > 0 { assert x in ps[1..][i - 1].results; }
      }
      if exists i :: 0 <= i < |ps[1..]| && x in ps[1..][i].results {
        var i :| 0 <= i < |ps[1..]| && x in ps[1..][i].results;
        assert x in ps[i + 1].results;
      }
    }
  }

  /** The result of a walk starting at `cursor`. */
  function Walk<T>(list: Option<string> -> Result<Page<T>>, cursor: Option<string>, filters: seq<string>,
                   nameOf: T -> string, idOf: T -> string, n: nat): Result<seq<T>>
    requires ChainEnds(list, cursor, n)
    decreases n
  {
    match list(cursor)
    case Err(e) => Err(e)
    case Ok(p) =>
      var kept := Kept(p.results, filters, nameOf, idOf);
      if p.cursor.None? then Ok(kept)
      else match Walk(list, p.cursor, filters, nameOf, idOf, n - 1)
           case Err(e) => Err(e)
           case Ok(rest) => Ok(kept + rest)
  }

  /** A walk returns the kept entries of every page, in page order and in-page order,
      and fails with the first page error, returning no partial list. */
  lemma {:induction false} WalkIsConcatenation<T>(list: Option<string> -> Result<Page<T>>, cursor: Option<string>,
                                                  filters: seq<string>, nameOf: T -> string, idOf: T -> string, n: nat)
    requires ChainEnds(list, cursor, n)
    ensures Walk(list, cursor, filters, nameOf, idOf, n) ==
            match Pages(list, cursor, n)
            case Ok(ps) => Ok(ConcatKept(ps, filters, nameOf, idOf))
            case Err(e) => Err(e)
    decreases n
  {
    match list(cursor)
    case Err(_) =>
    case Ok(p) =>
      if p.cursor.None? {
        assert [p][1..] == [];
        var kept := Kept(p.results, filters, nameOf, idOf);
        assert ConcatKept([p], filters, nameOf, idOf) == kept + [];
        assert kept + [] == kept;
      } else {
        WalkIsConcatenation(list, p.cursor, filters, nameOf, idOf, n - 1);
        match Pages(list, p.cursor, n - 1)
        case Err(_) =>
        case Ok(ps) => assert ([p] + ps)[1..] == ps;
      }
  }

  /** `res` followed by the outcome of the rest of a walk. */
  function Prepend<T>(res: seq<T>, r: Result<seq<T>>): Result<seq<T>> {
    match r
    case Ok(v) => Ok(res + v)
    case Err(e) => Err(e)
  }

  lemma PrependNothing<T>(r: Result<seq<T>>)
    ensures Prepend([], r) == r
  {
    if r.Ok? { assert [] + r.value == r.value; }
  }

  lemma PrependTwice<T>(a: seq<T>, b: seq<T>, r: Result<seq<T>>)
    ensures Prepend(a, Prepend(b, r)) == Prepend(a + b, r)
  {
    if r.Ok? { assert a + (b + r.value) == (a + b) + r.value; }
  }

  /** The loop shared by the three list calls: fetch a page with the current cursor,
      append the entries that pass the filter, move to the page's cursor, and stop when
      it is nil; a page error returns nothing but the error. */
  method WalkPages<T>(list: Option<string> -> Result<Page<T>>, filters: seq<string>,
                      nameOf: T -> string, idOf: T -> string, ghost n: nat) returns (r: Result<seq<T>>)
    requires ChainEnds(list, None, n)
    ensures r == Walk(list, None, filters, nameOf, idOf, n)
  {
    var cursor: Option<string> := None;
    var res: seq<T> := [];
    ghost var k := n;
    PrependNothing(Walk(list, None, filters, nameOf, idOf, n));
    while true
      invariant ChainEnds(list, cursor, k)
      invariant Walk(list, None, filters, nameOf, idOf, n) == Prepend(res, Walk(list, cursor, filters, nameOf, idOf, k))
      decreases k
    {
      var page := list(cursor);
      if page.Err? {
        return Err(page.error);
      }
      var results := page.value.results;
      ghost var before := res;
      var j := 0;
      while j < |results|
        invariant 0 <= j <= |results|
        invariant res == before + Kept(results[..j], filters, nameOf, idOf)
      {
        var cRes := results[j];
        if Include(nameOf(cRes), idOf(cRes), filters) {
          res := res + [cRes];
        }
        assert results[..j + 1][..j] == results[..j];
        j := j + 1;
      }
      assert results[..j] == results;
      cursor := page.value.cursor;
      if cursor.None? {
        break;
      }
      PrependTwice(before, Kept(results, filters, nameOf, idOf), Walk(list, cursor, filters, nameOf, idOf, k - 1));
      k := k - 1;
    }
    return Ok(res);
  }
}
