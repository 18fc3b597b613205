/** Construction of the Drive v2 search expression from the optional
    `title=` and `contains=` parameters of `drive search`. */
module DriveQuery {
  import opened Wrappers

  const MissingTermsMessage := "Must provide either a title or contains parameter to search."

  const TitlePrefix := "title contains '"
  const ContainsPrefix := "fullText contains '"
  const Conjunction := " and "

  /** `title contains '<t>'`: the terms are inserted without escaping. */
  function TitleClause(t: string): string
  {
    TitlePrefix + t + "'"
  }

  /** `fullText contains '<c>'` */
  function ContainsClause(c: string): string
  {
    ContainsPrefix + c + "'"
  }

  /** The query string the handler hands to the search, or the message it
      sends instead when neither parameter is given (no search is issued). */
  function BuildQuery(title: Option<string>, contains: Option<string>): (r: Result<string, string>)
    ensures r.Failure? <==> !Truthy(title) && !Truthy(contains)
    ensures r.Failure? ==> r.error == MissingTermsMessage
    ensures Truthy(title) && Truthy(contains) ==>
      r == Success(TitleClause(title.value) + Conjunction + ContainsClause(contains.value))
    ensures Truthy(title) && !Truthy(contains) ==> r == Success(TitleClause(title.value))
    ensures !Truthy(title) && Truthy(contains) ==> r == Success(ContainsClause(contains.value))
  {
    if !Truthy(contains) && !Truthy(title) then Failure(MissingTermsMessage)
    else if !Truthy(contains) then Success(TitleClause(title.value))
    else if !Truthy(title) then Success(ContainsClause(contains.value))
    else Success(TitleClause(title.value) + Conjunction + ContainsClause(contains.value))
  }

  /** With both terms present the query is the title-only query and the
      contains-only query joined by " and ". */
  lemma BuildQueryJoinsSides(title: string, contains: string)
    requires title != "" && contains != ""
    ensures BuildQuery(Some(title), Some(contains)).Success?
    ensures BuildQuery(Some(title), Some(contains)).value ==
      BuildQuery(Some(title), None).value + Conjunction + BuildQuery(None, Some(contains)).value
  {
  }

  // ---------------------------------------------------------------------
  // Reading a built query back: the partner of BuildQuery.

  predicate QuoteFree(s: string)
  {
    '\'' !in s
  }

  /** Index of the first single quote in `s`, or |s| if there is none. */
  function QuoteIndex(s: string): (i: nat)
    ensures i <= |s|
    ensures QuoteFree(s[..i])
    ensures i < |s| ==> s[i] == '\''
  {
    if s == [] then 0
    else if s[0] == '\'' then 0
    else
      var j := QuoteIndex(s[1..]);
      assert s[..j + 1] == [s[0]] + s[1..][..j];
      j + 1
  }

  lemma {:induction false} QuoteIndexAfter(t: string, rest: string)
    requires QuoteFree(t)
    ensures QuoteIndex(t + "'" + rest) == |t|
  {
    if t != [] {
      assert (t + "'" + rest)[1..] == t[1..] + "'" + rest;
      QuoteIndexAfter(t[1..], rest);
    }
  }

  /** What follows the title clause in a query: nothing, or the joined
      contains clause. */
  function ClauseTail(contains: Option<string>): string
  {
    match contains
    case None => ""
    case Some(c) => Conjunction + ContainsClause(c)
  }

  /** s without the given prefix, if it starts with it. */
  function StripPrefix(prefix: string, s: string): (r: Option<string>)
    ensures r.Some? ==> s == prefix + r.value
  {
    if prefix <= s then Some(s[|prefix|..]) else None
  }

  lemma StripPrefixOf(prefix: string, rest: string)
    ensures StripPrefix(prefix, prefix + rest) == Some(rest)
  {
    assert prefix <= prefix + rest;
    assert (prefix + rest)[|prefix|..] == rest;
  }

  /** A non-empty, quote-free term followed by the closing quote. */
  function ParseQuoted(s: string): (r: Option<string>)
    ensures r.Some? ==> s == r.value + "'" && r.value != "" && QuoteFree(r.value)
  {
    if |s| >= 2 && s[|s| - 1] == '\'' && QuoteFree(s[..|s| - 1]) then Some(s[..|s| - 1])
    else None
  }

  lemma ParseQuotedTerm(c: string)
    requires c != "" && QuoteFree(c)
    ensures ParseQuoted(c + "'") == Some(c)
  {
    assert (c + "'")[..|c|] == c;
  }

  /** What may follow the title term's closing quote: nothing, or the
      contains clause, whose term is the result. */
  function ParseTitleTail(tail: string): (r: Option<Option<string>>)
    ensures r.Some? ==> tail == ClauseTail(r.value)
    ensures r.Some? && r.value.Some? ==> r.value.value != "" && QuoteFree(r.value.value)
  {
    if tail == "" then Some(None)
    else
      match StripPrefix(Conjunction + ContainsPrefix, tail)
      case None => None
      case Some(quoted) =>
        match ParseQuoted(quoted)
        case None => None
        case Some(c) => Some(Some(c))
  }

  /** The title term up to its closing quote, then the tail. */
  function ParseTitleTerm(rest: string): (r: Option<(Option<string>, Option<string>)>)
    ensures r.Some? ==> r.value.0.Some? && r.value.0.value != "" && QuoteFree(r.value.0.value)
    ensures r.Some? && r.value.1.Some? ==> r.value.1.value != "" && QuoteFree(r.value.1.value)
    ensures r.Some? ==> rest == r.value.0.value + "'" + ClauseTail(r.value.1)
  {
    var i := QuoteIndex(rest);
    if i == |rest| || i == 0 then None
    else
      match ParseTitleTail(rest[i + 1..])
      case None => None
      case Some(contains) =>
        assert rest == rest[..i] + "'" + rest[i + 1..];
        Some((Some(rest[..i]), contains))
  }

  /** The (title, contains) pair a query string was built from, if it has
      one of the three shapes BuildQuery produces with quote-free terms. */
  function ParseQuery(q: string): Option<(Option<string>, Option<string>)>
  {
    match StripPrefix(TitlePrefix, q)
    case Some(rest) => ParseTitleTerm(rest)
    case None =>
      match StripPrefix(ContainsPrefix, q)
      case None => None
      case Some(quoted) =>
        match ParseQuoted(quoted)
        case None => None
        case Some(c) => Some((None, Some(c)))
  }

  /** Every query built from quote-free terms reads back as the terms the
      handler treated as present. */
  lemma ParseBuiltQuery(title: Option<string>, contains: Option<string>)
    requires Truthy(title) || Truthy(contains)
    requires Truthy(title) ==> QuoteFree(title.value)
    requires Truthy(contains) ==> QuoteFree(contains.value)
    ensures ParseQuery(BuildQuery(title, contains).value) == Some((Present(title), Present(contains)))
  {
    if Truthy(title) {
      var t, c := title.value, Present(contains);
      ParseClauseTail(c);
      TitleQueryText(t, c);
      StripPrefixOf(TitlePrefix, t + "'" + ClauseTail(c));
      ParseTitleTermOf(t, ClauseTail(c));
    } else {
      ParseContainsClause(contains.value);
    }
  }

  lemma ParseClauseTail(contains: Option<string>)
    requires contains.Some? ==> contains.value != "" && QuoteFree(contains.value)
    ensures ParseTitleTail(ClauseTail(contains)) == Some(contains)
  {
    if contains.Some? {
      var c := contains.value;
      assert ClauseTail(contains) == (Conjunction + ContainsPrefix) + (c + "'");
      StripPrefixOf(Conjunction + ContainsPrefix, c + "'");
      ParseQuotedTerm(c);
    }
  }

  lemma ParseTitleTermOf(t: string, tail: string)
    requires t != "" && QuoteFree(t)
    requires ParseTitleTail(tail).Some?
    ensures ParseTitleTerm(t + "'" + tail) == Some((Some(t), ParseTitleTail(tail).value))
  {
    var rest := t + "'" + tail;
    QuoteIndexAfter(t, tail);
    assert rest[..|t|] == t;
    assert rest[|t| + 1..] == tail;
  }

  lemma ParseContainsClause(c: string)
    requires c != "" && QuoteFree(c)
    ensures ParseQuery(ContainsClause(c)) == Some((None, Some(c)))
  {
    var q := ContainsClause(c);
    assert !(TitlePrefix <= q) by { assert q[0] != TitlePrefix[0]; }
    assert q == ContainsPrefix + (c + "'");
    StripPrefixOf(ContainsPrefix, c + "'");
    ParseQuotedTerm(c);
  }

  /** The title query text is the title prefix, the term, its closing quote
      and the clause tail. */
  lemma TitleQueryText(t: string, contains: Option<string>)
    requires t != "" && (contains.Some? ==> contains.value != "")
    ensures BuildQuery(Some(t), contains).Success?
    ensures BuildQuery(Some(t), contains).value == TitlePrefix + (t + "'" + ClauseTail(contains))
  {
    if Truthy(contains) {
      assert TitleClause(t) + Conjunction + ContainsClause(contains.value)
          == TitlePrefix + (t + "'" + ClauseTail(contains));
    } else {
      assert TitleClause(t) == TitlePrefix + (t + "'" + ClauseTail(None));
    }
  }

  /** Conversely, every query that parses is exactly what BuildQuery makes
      of the parsed terms, and those terms are non-empty and quote-free. */
  lemma BuildParsedQuery(q: string)
    requires ParseQuery(q).Some?
    ensures var terms := ParseQuery(q).value;
      && (terms.0.Some? ==> terms.0.value != "" && QuoteFree(terms.0.value))
      && (terms.1.Some? ==> terms.1.value != "" && QuoteFree(terms.1.value))
      && BuildQuery(terms.0, terms.1) == Success(q)
  {
    match StripPrefix(TitlePrefix, q)
    case Some(rest) =>
      var terms := ParseTitleTerm(rest).value;
      TitleQueryText(terms.0.value, terms.1);
    case None =>
      var c := ParseQuoted(StripPrefix(ContainsPrefix, q).value).value;
      assert q == ContainsClause(c);
  }

  /** Terms are spliced in unescaped, so a title that itself holds
      `' and fullText contains '` builds the same query as a title and a
      contains term: the round trip above needs quote-free terms. */
  lemma UnescapedQuoteCollision(t: string, c: string)
    requires t != "" && c != ""
    ensures BuildQuery(Some(t + "'" + Conjunction + ContainsPrefix + c), None) == BuildQuery(Some(t), Some(c))
  {
    var injected := t + "'" + Conjunction + ContainsPrefix + c;
    assert TitleClause(injected) == TitleClause(t) + Conjunction + ContainsClause(c);
  }
}
