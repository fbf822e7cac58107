/** `_list`: one paginated collection read to its empty token. */
module ResourceList {
  import opened Outcomes
  import Sizes

  const MAX_PAGES := 16
  const MAX_RESOURCES := 1024
  const PAGE_ROWS := 100
  const TOKEN_BOUND := 4096

  /** A listed resource; `identityOk` is whether its name, uid, generation and etag are acceptable. */
  datatype Row = Row(name: string, uid: string, config: nat, identityOk: bool)

  datatype Token = End | Next(token: string) | NotText

  /** One answer; `whole` is false for unknown keys or anything unreachable. */
  datatype Page = Page(whole: bool, rows: seq<Row>, next: Token)

  datatype Denial =
    | Partial | PageBound | IdentityInvalid | DuplicateResource | ResourceBound | TokenInvalid | PaginationBound

  function RowsOf(pages: nat -> Page, n: nat): seq<Row> {
    if n == 0 then [] else RowsOf(pages, n - 1) + pages(n - 1).rows
  }

  function TokensOf(pages: nat -> Page, n: nat): seq<string> {
    if n == 0 then []
    else TokensOf(pages, n - 1) + if pages(n - 1).next.Next? then [pages(n - 1).next.token] else []
  }

  predicate DistinctNames(rows: seq<Row>) {
    forall i, j | 0 <= i < j < |rows| :: rows[i].name != rows[j].name
  }

  predicate DistinctTokens(tokens: seq<string>) {
    forall i, j | 0 <= i < j < |tokens| :: tokens[i] != tokens[j]
  }

  predicate PageOk(p: Page) {
    p.whole && |p.rows| <= 100 && forall r | r in p.rows :: r.identityOk
  }

  /** The first `n` answers are acceptable and lead from each to the next. */
  predicate Followed(pages: nat -> Page, n: nat) {
    && (forall i | 0 <= i < n :: PageOk(pages(i)) && pages(i).next.Next? && |pages(i).next.token| <= 4096)
    && DistinctTokens(TokensOf(pages, n)) && DistinctNames(RowsOf(pages, n)) && |RowsOf(pages, n)| <= 1024
  }

  /** The collection is complete at its `n`th answer. */
  predicate EndsAt(pages: nat -> Page, n: nat) {
    && 1 <= n <= 16 && Followed(pages, n - 1)
    && PageOk(pages(n - 1)) && pages(n - 1).next == End
    && DistinctNames(RowsOf(pages, n)) && |RowsOf(pages, n)| <= 1024
  }

  ghost predicate Indexes(result: map<string, Row>, rows: seq<Row>) {
    && (forall r | r in rows :: r.name in result && result[r.name] == r)
    && (forall name | name in result :: result[name] in rows && result[name].name == name)
    && |result| == |rows|
  }

  lemma {:induction false} PrefixRows(pages: nat -> Page, k: nat, n: nat)
    requires k <= n
    ensures RowsOf(pages, k) <= RowsOf(pages, n)
    decreases n
  {
    if k < n {
      PrefixRows(pages, k, n - 1);
    }
  }

  /** The page loop's row loop: no name may repeat, on this page or an earlier one. */
  method AddRows(result: map<string, Row>, rows: seq<Row>, ghost before: seq<Row>)
    returns (grown: map<string, Row>, denied: Option<Denial>)
    requires Indexes(result, before) && DistinctNames(before)
    ensures denied == None <==> (forall r | r in rows :: r.identityOk) && DistinctNames(before + rows)
    ensures denied == None ==> Indexes(grown, before + rows)
    ensures denied.Some? ==> denied.value in {IdentityInvalid, DuplicateResource}
    ensures denied == Some(IdentityInvalid) ==> exists r | r in rows :: !r.identityOk
    ensures denied == Some(DuplicateResource) ==> !DistinctNames(before + rows)
  {
    hide DistinctNames, Indexes;
    grown := result;
    assert before + rows[..0] == before;
    for i := 0 to |rows|
      invariant forall k | 0 <= k < i :: rows[k].identityOk
      invariant DistinctNames(before + rows[..i]) && Indexes(grown, before + rows[..i])
    {
      ghost var all := before + rows[..i];
      assert before + rows[..i + 1] == all + [rows[i]] && before + rows == all + [rows[i]] + rows[i + 1..];
      if !rows[i].identityOk {
        return grown, Some(IdentityInvalid);
      }
      OneMoreName(grown, all, rows[i], rows[i + 1..]);
      if rows[i].name in grown {
        return grown, Some(DuplicateResource);
      }
      grown := grown[rows[i].name := rows[i]];
    }
    assert before + rows[..|rows|] == before + rows;
    denied := None;
  }

  lemma OneMoreName(result: map<string, Row>, all: seq<Row>, r: Row, more: seq<Row>)
    requires DistinctNames(all) && Indexes(result, all)
    ensures r.name in result ==> !DistinctNames(all + [r] + more)
    ensures r.name !in result ==> DistinctNames(all + [r]) && Indexes(result[r.name := r], all + [r])
  {
    hide DistinctNames, Indexes;
    if r.name in result {
      NameTaken(result, all, r, more);
    } else {
      NameFree(result, all, r);
    }
  }

  lemma NameTaken(result: map<string, Row>, all: seq<Row>, r: Row, more: seq<Row>)
    requires Indexes(result, all) && r.name in result
    ensures !DistinctNames(all + [r] + more)
  {
    var q, longer := result[r.name], all + [r] + more;
    var k :| 0 <= k < |all| && all[k] == q;
    assert longer[k] == q && longer[|all|] == r;
  }

  lemma NameFree(result: map<string, Row>, all: seq<Row>, r: Row)
    requires DistinctNames(all) && Indexes(result, all) && r.name !in result
    ensures DistinctNames(all + [r]) && Indexes(result[r.name := r], all + [r])
  {
    forall k | 0 <= k < |all|
      ensures all[k].name != r.name
    {
      assert all[k] in all;
    }
    Sizes.MapWith(result, r.name, r);
  }

  lemma FollowedUpTo(pages: nat -> Page, k: nat, n: nat)
    requires k <= n && Followed(pages, n)
    ensures Followed(pages, k)
  {
    PrefixRows(pages, k, n);
    PrefixTokens(pages, k, n);
  }

  lemma {:induction false} PrefixTokens(pages: nat -> Page, k: nat, n: nat)
    requires k <= n
    ensures TokensOf(pages, k) <= TokensOf(pages, n)
    decreases n
  {
    if k < n {
      PrefixTokens(pages, k, n - 1);
    }
  }

  /** Each request carried the token of the answer before it; the first carried none. */
  predicate AskedInTurn(pages: nat -> Page, asked: seq<Option<string>>) {
    forall i | 0 <= i < |asked| ::
      asked[i] == if i == 0 then None else if pages(i - 1).next.Next? then Some(pages(i - 1).next.token) else None
  }

  lemma AskNext(pages: nat -> Page, asked: seq<Option<string>>, token: Option<string>)
    requires AskedInTurn(pages, asked)
    requires token == if asked == [] then None
                      else if pages(|asked| - 1).next.Next? then Some(pages(|asked| - 1).next.token) else None
    ensures AskedInTurn(pages, asked + [token])
  {
  }

  ghost predicate Ends(pages: nat -> Page) {
    exists n: nat :: EndsAt(pages, n)
  }

  /** What one more answer must be for the collection to end at all. */
  lemma MustLeadOn(pages: nat -> Page, k: nat)
    requires Followed(pages, k) && Ends(pages)
    ensures k < 16 && PageOk(pages(k))
    ensures DistinctNames(RowsOf(pages, k + 1)) && |RowsOf(pages, k + 1)| <= 1024
    ensures pages(k).next == End || Followed(pages, k + 1)
  {
    var n: nat :| EndsAt(pages, n);
    LeadsOn(pages, k, n);
    if n > k + 1 {
      FollowedUpTo(pages, k + 1, n - 1);
    }
  }

  lemma LeadsOn(pages: nat -> Page, k: nat, n: nat)
    requires Followed(pages, k)
    ensures 1 <= n <= k ==> pages(n - 1).next.Next?
  {
  }

  /** The tokens the first `k` answers gave. */
  predicate Seen(pages: nat -> Page, k: nat, tokens: set<string>) {
    tokens == set t | t in TokensOf(pages, k)
  }

  lemma NextToken(pages: nat -> Page, k: nat)
    requires Followed(pages, k) && PageOk(pages(k)) && pages(k).next != End
    requires DistinctNames(RowsOf(pages, k + 1)) && |RowsOf(pages, k + 1)| <= 1024
    ensures Followed(pages, k + 1) <==>
              pages(k).next.Next? && |pages(k).next.token| <= 4096 && pages(k).next.token !in TokensOf(pages, k)
    ensures pages(k).next.Next? ==>
              forall seen | Seen(pages, k, seen) :: Seen(pages, k + 1, seen + {pages(k).next.token})
    ensures forall seen | Seen(pages, k, seen) :: forall t :: t in seen <==> t in TokensOf(pages, k)
  {
    if pages(k).next.Next? {
      var tokens, token := TokensOf(pages, k), pages(k).next.token;
      assert TokensOf(pages, k + 1) == tokens + [token];
      if token in tokens {
        var i :| 0 <= i < |tokens| && tokens[i] == token;
        assert (tokens + [token])[i] == (tokens + [token])[|tokens|];
      }
    }
  }

  lemma NothingYet(pages: nat -> Page)
    ensures Followed(pages, 0) && Indexes(map[], RowsOf(pages, 0)) && Seen(pages, 0, {})
  {
  }

  lemma NothingAsked(pages: nat -> Page)
    ensures AskedInTurn(pages, [])
  {
  }

  lemma FollowedRows(pages: nat -> Page, k: nat)
    requires Followed(pages, k)
    ensures DistinctNames(RowsOf(pages, k)) && RowsOf(pages, k + 1) == RowsOf(pages, k) + pages(k).rows
    ensures PageOk(pages(k)) <==>
              pages(k).whole && |pages(k).rows| <= 100 && forall r | r in pages(k).rows :: r.identityOk
  {
  }

  lemma EndsHere(pages: nat -> Page, k: nat)
    requires Followed(pages, k) && k < 16 && PageOk(pages(k)) && pages(k).next == End
    requires DistinctNames(RowsOf(pages, k + 1)) && |RowsOf(pages, k + 1)| <= 1024
    ensures EndsAt(pages, k + 1) && Ends(pages)
  {
    hide Followed, DistinctNames, RowsOf, PageOk;
    assert k + 1 - 1 == k;
    assert EndsAt(pages, k + 1);
  }

  lemma Counted(result: map<string, Row>, rows: seq<Row>)
    requires Indexes(result, rows)
    ensures |result| == |rows|
  {
  }

  /** Why the listing is refused at its `n`th answer, all earlier ones being acceptable and leading on. */
  ghost predicate Why(pages: nat -> Page, n: nat, reason: Denial)
    requires n > 0
  {
    var p := pages(n - 1);
    if reason.PaginationBound? then n == 16 && Followed(pages, 16)
    else
      && Followed(pages, n - 1)
      && match reason
         case Partial => !p.whole
         case PageBound => p.whole && |p.rows| > 100
         case IdentityInvalid => exists r | r in p.rows :: !r.identityOk
         case DuplicateResource => !DistinctNames(RowsOf(pages, n))
         case ResourceBound => PageOk(p) && |RowsOf(pages, n)| > 1024
         case TokenInvalid =>
           PageOk(p) && (p.next.NotText? || (p.next.Next? && |p.next.token| > 4096)
                         || (p.next.Next? && p.next.token in TokensOf(pages, n - 1)))
         case PaginationBound => true
  }

  /** `_list` over the answers to its successive requests: it stops at the first empty token, having
      asked with each answer's token in turn, and returns exactly the rows of the pages it read. */
  method List(pages: nat -> Page)
    returns (result: Result<map<string, Row>, Denial>, asked: seq<Option<string>>)
    ensures result.Ok? <==> Ends(pages)
    ensures result.Ok? ==> EndsAt(pages, |asked|) && Indexes(result.value, RowsOf(pages, |asked|))
    ensures 1 <= |asked| <= 16 && AskedInTurn(pages, asked)
    ensures result.Refused? ==> Why(pages, |asked|, result.reason)
  {
    hide AskedInTurn, Followed, EndsAt, Ends, PageOk, DistinctNames, Indexes, RowsOf, TokensOf, Seen;
    var rows: map<string, Row>, token: Option<string>, tokens: set<string> := map[], None, {};
    asked := [];
    NothingYet(pages);
    NothingAsked(pages);
    for k := 0 to MAX_PAGES
      invariant |asked| == k && Followed(pages, k) && Indexes(rows, RowsOf(pages, k))
      invariant k > 0 ==> pages(k - 1).next.Next?
      invariant token == if k == 0 then None else Some(pages(k - 1).next.token)
      invariant AskedInTurn(pages, asked)
      invariant Seen(pages, k, tokens)
    {
      if Ends(pages) {
        MustLeadOn(pages, k);
      }
      FollowedRows(pages, k);
      AskNext(pages, asked, token);
      asked := asked + [token];
      var page := pages(k);
      if !page.whole {
        return Refused(Partial), asked;
      }
      if |page.rows| > PAGE_ROWS {
        return Refused(PageBound), asked;
      }
      var denied;
      rows, denied := AddRows(rows, page.rows, RowsOf(pages, k));
      if denied.Some? {
        return Refused(denied.value), asked;
      }
      Counted(rows, RowsOf(pages, k + 1));
      if |rows| > MAX_RESOURCES {
        return Refused(ResourceBound), asked;
      }
      if page.next == End {
        EndsHere(pages, k);
        return Ok(rows), asked;
      }
      NextToken(pages, k);
      if page.next.NotText? || |page.next.token| > TOKEN_BOUND || page.next.token in tokens {
        return Refused(TokenInvalid), asked;
      }
      token, tokens := Some(page.next.token), tokens + {page.next.token};
    }
    if Ends(pages) {
      MustLeadOn(pages, MAX_PAGES);
    }
    return Refused(PaginationBound), asked;
  }
}
