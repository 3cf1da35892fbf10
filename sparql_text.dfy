/**
 * Query text: the leading-keyword routing of `prepareQuery` and the context filter
 * clauses that `getStatements`, `hasStatement` and `size` spell out.
 */
module SparqlText {
  import opened Wrappers
  import opened Rdf
  import opened RemoteStore

  // ---------------------------------------------------------------------------
  // Characters and prefixes (ASCII only)
  // ---------------------------------------------------------------------------

  function UpperChar(c: char): (r: char)
    ensures 'a' <= c <= 'z' ==> 'A' <= r <= 'Z'
    ensures !('a' <= c <= 'z') ==> r == c
  {
    if 'a' <= c <= 'z' then (c as int - 32) as char else c
  }

  /** `toUpperCase`, restricted to ASCII letters. */
  function ToUpper(s: string): (r: string)
    ensures |r| == |s|
    ensures forall i :: 0 <= i < |s| ==> r[i] == UpperChar(s[i])
  {
    seq(|s|, i requires 0 <= i < |s| => UpperChar(s[i]))
  }

  lemma ToUpperIdempotent(s: string)
    ensures ToUpper(ToUpper(s)) == ToUpper(s)
  {
  }

  lemma ToUpperSlices(s: string, i: int, j: int)
    requires 0 <= i <= j <= |s|
    ensures ToUpper(s)[i..j] == ToUpper(s[i..j])
  {
  }

  lemma ToUpperConcat(a: string, b: string)
    ensures ToUpper(a + b) == ToUpper(a) + ToUpper(b)
  {
  }

  predicate IsSpace(c: char)
  {
    c == ' ' || c == '\t' || c == '\n' || c == '\r'
  }

  predicate IsSuffix(r: string, s: string)
  {
    |r| <= |s| && r == s[|s| - |r|..]
  }

  predicate StartsWith(s: string, p: string)
  {
    |p| <= |s| && s[..|p|] == p
  }

  /** `s` begins with the upper-case keyword `kw`, compared without regard to case. */
  predicate StartsWithKeyword(s: string, kw: string)
    decreases kw
  {
    kw == [] || (s != [] && UpperChar(s[0]) == kw[0] && StartsWithKeyword(s[1..], kw[1..]))
  }

  /** Everything after the first `c`; empty when there is none. */
  function DropThrough(s: string, c: char): (r: string)
    ensures |r| <= |s|
    ensures s != [] ==> |r| < |s|
  {
    if s == [] then []
    else if s[0] == c then s[1..]
    else DropThrough(s[1..], c)
  }

  lemma {:induction false} DropThroughSuffix(s: string, c: char)
    ensures IsSuffix(DropThrough(s, c), s)
    ensures c !in s ==> DropThrough(s, c) == []
    decreases |s|
  {
    if s != [] && s[0] != c {
      DropThroughSuffix(s[1..], c);
      SuffixOfSuffix(DropThrough(s, c), s[1..], s);
    }
  }

  lemma {:induction false} DropThroughPast(a: string, c: char, b: string)
    requires c !in a
    ensures DropThrough(a + [c] + b, c) == b
    decreases |a|
  {
    if a == [] {
      assert ([] + [c] + b)[1..] == b;
    } else {
      assert (a + [c] + b)[1..] == a[1..] + [c] + b;
      DropThroughPast(a[1..], c, b);
    }
  }

  // ---------------------------------------------------------------------------
  // Prolog removal and routing
  // ---------------------------------------------------------------------------

  /** The text after the prolog starts with none of the things the prolog may hold. */
  predicate NoPrologAhead(s: string)
  {
    s == [] || (!IsSpace(s[0]) && s[0] != '#' && !StartsWithKeyword(s, "PREFIX") && !StartsWithKeyword(s, "BASE"))
  }

  /**
   * Prolog removal: skip white space, `#` comments up to the end of the line, and `PREFIX`
   * and `BASE` declarations up to their closing `>`. A simplified stand-in for the SPARQL
   * parser's own prolog removal.
   */
  function RemoveProlog(q: string): (r: string)
    ensures |r| <= |q|
    ensures NoPrologAhead(r)
    ensures NoPrologAhead(q) ==> r == q
    decreases |q|
  {
    if NoPrologAhead(q) then q else RemoveProlog(PrologRest(q))
  }

  /** What is left after the first prolog entry (or the first blank) is skipped. */
  function PrologRest(q: string): (r: string)
    requires q != []
    ensures |r| < |q|
  {
    if IsSpace(q[0]) then q[1..] else if q[0] == '#' then DropThrough(q, '\n') else DropThrough(q, '>')
  }

  lemma SuffixOfSuffix(a: string, b: string, c: string)
    requires IsSuffix(a, b) && IsSuffix(b, c)
    ensures IsSuffix(a, c)
  {
    assert c[|c| - |b|..][|b| - |a|..] == c[|c| - |a|..];
  }

  /** Prolog removal only ever cuts text off the front of the query. */
  lemma {:induction false} RemovePrologIsSuffix(q: string)
    ensures IsSuffix(RemoveProlog(q), q)
    decreases |q|
  {
    if !NoPrologAhead(q) {
      var rest := PrologRest(q);
      if IsSpace(q[0]) {
        assert IsSuffix(rest, q);
      } else if q[0] == '#' {
        DropThroughSuffix(q, '\n');
      } else {
        DropThroughSuffix(q, '>');
      }
      RemovePrologIsSuffix(rest);
      SuffixOfSuffix(RemoveProlog(rest), rest, q);
    }
  }

  /** Routing on the upper-cased text that follows the prolog. */
  function Classify(u: string): (r: QueryKind)
    ensures r != UpdateQuery
  {
    if StartsWith(u, "SELECT") then TupleQuery
    else if StartsWith(u, "ASK") then BooleanQuery
    else GraphQuery
  }

  lemma {:induction false} StartsWithUpper(s: string, kw: string)
    ensures StartsWith(ToUpper(s), kw) <==> StartsWithKeyword(s, kw)
    decreases kw
  {
    if kw != [] && s != [] {
      StartsWithUpper(s[1..], kw[1..]);
      assert ToUpper(s)[1..] == ToUpper(s[1..]);
      if StartsWith(ToUpper(s), kw) {
        assert ToUpper(s)[1..][..|kw| - 1] == kw[1..];
      }
      if StartsWithKeyword(s, kw) {
        assert ToUpper(s)[..|kw|] == [UpperChar(s[0])] + ToUpper(s[1..])[..|kw| - 1];
      }
    }
  }

  /** The kind `prepareQuery` picks for a SPARQL text. */
  function ClassifyQuery(q: string): (r: QueryKind)
    ensures r == TupleQuery <==> StartsWithKeyword(RemoveProlog(q), "SELECT")
    ensures r == BooleanQuery <==>
      !StartsWithKeyword(RemoveProlog(q), "SELECT") && StartsWithKeyword(RemoveProlog(q), "ASK")
    ensures r != UpdateQuery
  {
    StartsWithUpper(RemoveProlog(q), "SELECT");
    StartsWithUpper(RemoveProlog(q), "ASK");
    Classify(ToUpper(RemoveProlog(q)))
  }

  lemma {:induction false} StartsWithKeywordUpper(s: string, kw: string)
    ensures StartsWithKeyword(ToUpper(s), kw) <==> StartsWithKeyword(s, kw)
    decreases kw
  {
    if kw != [] && s != [] {
      assert ToUpper(s)[1..] == ToUpper(s[1..]);
      StartsWithKeywordUpper(s[1..], kw[1..]);
    }
  }

  lemma {:induction false} DropThroughUpper(s: string, c: char)
    requires !('a' <= c <= 'z') && !('A' <= c <= 'Z')
    ensures DropThrough(ToUpper(s), c) == ToUpper(DropThrough(s, c))
    decreases |s|
  {
    if s != [] {
      assert ToUpper(s)[1..] == ToUpper(s[1..]);
      if s[0] != c {
        DropThroughUpper(s[1..], c);
      }
    }
  }

  lemma PrologRestUpper(q: string)
    requires q != []
    ensures PrologRest(ToUpper(q)) == ToUpper(PrologRest(q))
  {
    if IsSpace(q[0]) {
      assert ToUpper(q)[1..] == ToUpper(q[1..]);
    } else if q[0] == '#' {
      DropThroughUpper(q, '\n');
    } else {
      DropThroughUpper(q, '>');
    }
  }

  /** Upper-casing before or after the prolog is removed comes to the same text. */
  lemma {:induction false} RemovePrologUpper(q: string)
    ensures RemoveProlog(ToUpper(q)) == ToUpper(RemoveProlog(q))
    decreases |q|
  {
    if q != [] {
      var u := ToUpper(q);
      assert u[0] == UpperChar(q[0]);
      StartsWithKeywordUpper(q, "PREFIX");
      StartsWithKeywordUpper(q, "BASE");
      assert NoPrologAhead(u) <==> NoPrologAhead(q);
      if !NoPrologAhead(q) {
        PrologRestUpper(q);
        RemovePrologUpper(PrologRest(q));
      }
    }
  }

  /** Routing does not depend on the case of the query text. */
  lemma ClassifyIgnoresCase(q: string)
    ensures ClassifyQuery(ToUpper(q)) == ClassifyQuery(q)
  {
    RemovePrologUpper(q);
    ToUpperIdempotent(RemoveProlog(q));
  }

  /** One prolog entry, as a query writer may put it before the query form. */
  datatype PrologItem = Prefix(name: string, iri: string) | Base(iri: string) | Comment(text: string) | Space

  predicate WellFormedItem(p: PrologItem)
  {
    match p
    case Prefix(name, iri) => '>' !in name && '>' !in iri
    case Base(iri) => '>' !in iri
    case Comment(text) => '\n' !in text
    case Space => true
  }

  /** The query text `body` with the entry `p` written in front of it. */
  function WithItem(p: PrologItem, body: string): string
  {
    match p
    case Prefix(name, iri) => "PREFIX " + (name + (": <" + (iri + (">" + body))))
    case Base(iri) => "BASE <" + (iri + (">" + body))
    case Comment(text) => "#" + (text + ("\n" + body))
    case Space => " " + body
  }

  /** The query text `body` with the entries `ps` written in front of it, in order. */
  function WithProlog(ps: seq<PrologItem>, body: string): string
    decreases |ps|
  {
    if ps == [] then body else WithItem(ps[0], WithProlog(ps[1..], body))
  }

  lemma {:induction false} DropThroughConcat(a: string, b: string, c: char)
    requires c !in a
    ensures DropThrough(a + b, c) == DropThrough(b, c)
    decreases |a|
  {
    if a != [] {
      var t := a + b;
      assert t[0] == a[0] && a[0] in a;
      assert t[1..] == a[1..] + b;
      assert c !in a[1..] by {
        forall x | x in a[1..] ensures x in a {
        }
      }
      DropThroughConcat(a[1..], b, c);
    } else {
      assert a + b == b;
    }
  }

  lemma {:induction false} KeywordExtends(a: string, b: string, kw: string)
    requires StartsWithKeyword(a, kw)
    ensures StartsWithKeyword(a + b, kw)
    decreases kw
  {
    if kw != [] {
      assert (a + b)[1..] == a[1..] + b;
      KeywordExtends(a[1..], b, kw[1..]);
    }
  }

  lemma SkipPrefix(name: string, iri: string, body: string)
    requires '>' !in name && '>' !in iri
    ensures RemoveProlog(WithItem(Prefix(name, iri), body)) == RemoveProlog(body)
  {
    var q := WithItem(Prefix(name, iri), body);
    KeywordExtends("PREFIX ", name + (": <" + (iri + (">" + body))), "PREFIX");
    assert q[0] == 'P';
    DropThroughConcat("PREFIX ", name + (": <" + (iri + (">" + body))), '>');
    DropThroughConcat(name, ": <" + (iri + (">" + body)), '>');
    DropThroughConcat(": <", iri + (">" + body), '>');
    DropThroughConcat(iri, ">" + body, '>');
    assert (">" + body)[1..] == body;
  }

  lemma SkipBase(iri: string, body: string)
    requires '>' !in iri
    ensures RemoveProlog(WithItem(Base(iri), body)) == RemoveProlog(body)
  {
    var q := WithItem(Base(iri), body);
    KeywordExtends("BASE <", iri + (">" + body), "BASE");
    assert q[0] == 'B';
    DropThroughConcat("BASE <", iri + (">" + body), '>');
    DropThroughConcat(iri, ">" + body, '>');
    assert (">" + body)[1..] == body;
  }

  lemma SkipComment(text: string, body: string)
    requires '\n' !in text
    ensures RemoveProlog(WithItem(Comment(text), body)) == RemoveProlog(body)
  {
    var q := WithItem(Comment(text), body);
    assert q[0] == '#';
    DropThroughConcat("#", text + ("\n" + body), '\n');
    DropThroughConcat(text, "\n" + body, '\n');
    assert ("\n" + body)[1..] == body;
  }

  lemma SkipItem(p: PrologItem, body: string)
    requires WellFormedItem(p)
    ensures RemoveProlog(WithItem(p, body)) == RemoveProlog(body)
  {
    match p
    case Prefix(name, iri) => SkipPrefix(name, iri, body);
    case Base(iri) => SkipBase(iri, body);
    case Comment(text) => SkipComment(text, body);
    case Space => assert WithItem(p, body)[1..] == body;
  }

  /** Any well-formed prolog in front of a query is skipped, whatever follows it. */
  lemma {:induction false} SkipProlog(ps: seq<PrologItem>, body: string)
    requires forall i :: 0 <= i < |ps| ==> WellFormedItem(ps[i])
    ensures RemoveProlog(WithProlog(ps, body)) == RemoveProlog(body)
    decreases |ps|
  {
    if ps != [] {
      SkipItem(ps[0], WithProlog(ps[1..], body));
      SkipProlog(ps[1..], body);
    }
  }

  /** Hence the prolog never changes how a query is routed. */
  lemma ClassifyIgnoresProlog(ps: seq<PrologItem>, body: string)
    requires forall i :: 0 <= i < |ps| ==> WellFormedItem(ps[i])
    ensures ClassifyQuery(WithProlog(ps, body)) == ClassifyQuery(body)
  {
    SkipProlog(ps, body);
  }

  /** A text that opens with a query-form word, in any case, loses nothing to prolog removal. */
  lemma KeywordFirst(word: string, kw: string, rest: string)
    requires kw != [] && 'A' <= kw[0] <= 'Z' && kw[0] != 'P' && kw[0] != 'B'
    requires StartsWithKeyword(word, kw)
    ensures RemoveProlog(word + rest) == word + rest
    ensures StartsWithKeyword(word + rest, kw)
    ensures UpperChar((word + rest)[0]) == kw[0]
  {
    KeywordExtends(word, rest, kw);
  }

  lemma SelectFirst(word: string, rest: string)
    requires StartsWithKeyword(word, "SELECT")
    ensures ClassifyQuery(word + rest) == TupleQuery
  {
    KeywordFirst(word, "SELECT", rest);
  }

  lemma AskFirst(word: string, rest: string)
    requires StartsWithKeyword(word, "ASK")
    ensures ClassifyQuery(word + rest) == BooleanQuery
  {
    KeywordFirst(word, "ASK", rest);
  }

  /** Any other query-form word gives a graph query. */
  lemma OtherFormFirst(word: string, kw: string, rest: string)
    requires kw != [] && 'A' <= kw[0] <= 'Z' && kw[0] !in "PBSA"
    requires StartsWithKeyword(word, kw)
    ensures ClassifyQuery(word + rest) == GraphQuery
  {
    KeywordFirst(word, kw, rest);
  }

  /** The lower-case query of the repository's connection test, which opens with `select`, is a tuple query. */
  lemma LowerCaseSelectIsTuple(rest: string)
    ensures ClassifyQuery("select" + rest) == TupleQuery
  {
    SelectFirst("select", rest);
  }

  /** A declared prefix ahead of ASK still gives a boolean query. */
  lemma PrefixedAskIsBoolean(name: string, iri: string, rest: string)
    requires '>' !in name && '>' !in iri
    ensures ClassifyQuery(WithItem(Prefix(name, iri), "ASK" + rest)) == BooleanQuery
  {
    SkipPrefix(name, iri, "ASK" + rest);
    AskFirst("ASK", rest);
  }

  /** CONSTRUCT gives a graph query. */
  lemma ConstructIsGraph(rest: string)
    ensures ClassifyQuery("CONSTRUCT" + rest) == GraphQuery
  {
    OtherFormFirst("CONSTRUCT", "CONSTRUCT", rest);
  }

  /** An update is routed as a graph query too: routing has no update kind. */
  lemma UpdateIsGraph(rest: string)
    ensures ClassifyQuery("insert" + rest) == GraphQuery
    ensures ClassifyQuery("DELETE" + rest) == GraphQuery
  {
    OtherFormFirst("insert", "INSERT", rest);
    OtherFormFirst("DELETE", "DELETE", rest);
  }

  // ---------------------------------------------------------------------------
  // Context filter lists
  // ---------------------------------------------------------------------------

  /** The filter term for one context; a null context stands for the default graph. */
  function CtxTerm(c: Context): (r: string)
    // an IRI(...) call around one quoted string literal
    ensures |r| >= 7 && r[..5] == "IRI(\"" && r[|r| - 2..] == "\")"
  {
    "IRI(\"" + (if c.None? then DefaultGraphUri else ToString(c.value)) + "\")"
  }

  function Terms(cs: seq<Context>): (ts: seq<string>)
    ensures |ts| == |cs| && forall i :: 0 <= i < |cs| ==> ts[i] == CtxTerm(cs[i])
  {
    seq(|cs|, i requires 0 <= i < |cs| => CtxTerm(cs[i]))
  }

  /** Terms joined by commas, accumulated from left to right as the builders' loops do. */
  function JoinLeft(ts: seq<string>): string
    decreases |ts|
  {
    if |ts| == 0 then ""
    else if |ts| == 1 then ts[0]
    else JoinLeft(ts[..|ts| - 1]) + "," + ts[|ts| - 1]
  }

  /** The comma-joined filter list of the contexts. */
  function JoinTerms(cs: seq<Context>): string
  {
    JoinLeft(Terms(cs))
  }

  /** An independent reading: each term, in order, with one comma between neighbours. */
  function Separated(ts: seq<string>): string
    decreases |ts|
  {
    if |ts| == 0 then ""
    else if |ts| == 1 then ts[0]
    else ts[0] + "," + Separated(ts[1..])
  }

  lemma {:induction false} SeparatedSnoc(ts: seq<string>, t: string)
    requires ts != []
    ensures Separated(ts + [t]) == Separated(ts) + "," + t
    decreases |ts|
  {
    if |ts| > 1 {
      assert (ts + [t])[1..] == ts[1..] + [t];
      SeparatedSnoc(ts[1..], t);
    }
  }

  lemma {:induction false} JoinLeftSeparated(ts: seq<string>)
    ensures JoinLeft(ts) == Separated(ts)
    decreases |ts|
  {
    if |ts| > 1 {
      var init := ts[..|ts| - 1];
      JoinLeftSeparated(init);
      assert ts == init + [ts[|ts| - 1]];
      SeparatedSnoc(init, ts[|ts| - 1]);
    }
  }

  /** The filter list holds the contexts' terms in order, with a single comma between neighbours. */
  lemma JoinTermsSeparated(cs: seq<Context>)
    ensures JoinTerms(cs) == Separated(Terms(cs))
  {
    JoinLeftSeparated(Terms(cs));
  }

  lemma {:induction false} JoinLeftAppend(a: seq<string>, b: seq<string>)
    requires a != [] && b != []
    ensures JoinLeft(a + b) == JoinLeft(a) + "," + JoinLeft(b)
    decreases |b|
  {
    var ab := a + b;
    assert ab[|ab| - 1] == b[|b| - 1];
    if |b| == 1 {
      assert ab[..|ab| - 1] == a;
    } else {
      var bi := b[..|b| - 1];
      assert ab[..|ab| - 1] == a + bi;
      JoinLeftAppend(a, bi);
    }
  }

  /** Filtering on two runs of contexts puts exactly one comma between their lists. */
  lemma JoinTermsAppend(a: seq<Context>, b: seq<Context>)
    requires a != [] && b != []
    ensures JoinTerms(a + b) == JoinTerms(a) + "," + JoinTerms(b)
  {
    assert Terms(a + b) == Terms(a) + Terms(b);
    JoinLeftAppend(Terms(a), Terms(b));
  }

  /** The loop the three builders share: append a comma before every term but the first. */
  method ContextList(cs: seq<Context>) returns (s: string)
    ensures s == JoinTerms(cs)
  {
    ghost var ts := Terms(cs);
    s := "";
    var first := true;
    var i := 0;
    while i < |cs|
      invariant 0 <= i <= |cs|
      invariant first <==> i == 0
      invariant s == JoinLeft(ts[..i])
    {
      if first {
        first := !first;
      } else {
        s := s + ",";
      }
      s := s + CtxTerm(cs[i]);
      assert ts[..i + 1][..i] == ts[..i];
      i := i + 1;
    }
    assert ts[..i] == ts;
  }

  // ---------------------------------------------------------------------------
  // The three builders
  // ---------------------------------------------------------------------------

  const Something: string := "ASK" + " { ?s ?p ?o }"
  const CountEverything: string := "SELECT" + " (count(?s) as ?ct) where { GRAPH ?g { ?s ?p ?o } }"

  const StatementsHead: string := "SELECT" + " * WHERE { GRAPH ?ctx { ?s ?p ?o } filter (?ctx = ("
  const AskHead: string := "ASK" + " { GRAPH ?ctx { ?s ?p ?o } filter (?ctx = ("
  const FilterTail: string := ") ) }"
  const CountHead: string := "SELECT" + " (count(?s) as ?ct) where { GRAPH ?g { ?s ?p ?o }"
  const CountFilterHead: string := "filter (?g = ("
  const CountFilterTail: string := ") )"

  /** The contexts `getStatements` filters on: a null array stands for the default graph alone. */
  function StatementContexts(contexts: Option<seq<Context>>): (cs: seq<Context>)
    ensures contexts.None? ==> cs == [None]
    ensures contexts.Some? ==> cs == contexts.value
  {
    if contexts.None? then [None] else contexts.value
  }

  /** The `getStatements` query text: every row of the chosen graphs, with the graph bound to ?ctx. */
  method StatementsQueryText(contexts: Option<seq<Context>>) returns (q: string)
    ensures q == StatementsHead + JoinTerms(StatementContexts(contexts)) + FilterTail
    ensures ClassifyQuery(q) == TupleQuery
  {
    var list := ContextList(StatementContexts(contexts));
    q := StatementsHead + list + FilterTail;
    SelectFirst(StatementsHead, list + FilterTail);
    assert q == StatementsHead + (list + FilterTail);
  }

  /** The `hasStatement` query text: the plain ASK without contexts, a filtered one otherwise. */
  method HasStatementQueryText(contexts: Option<seq<Context>>) returns (q: string)
    ensures contexts.None? || contexts.value == [] ==> q == Something
    ensures contexts.Some? && contexts.value != [] ==> q == AskHead + JoinTerms(contexts.value) + FilterTail
    ensures q == Something <==> contexts.None? || contexts.value == []
    ensures ClassifyQuery(q) == BooleanQuery
  {
    if contexts.None? || |contexts.value| == 0 {
      q := Something;
      AskFirst(Something, "");
      assert q == Something + "";
    } else {
      var list := ContextList(contexts.value);
      q := AskHead + list + FilterTail;
      assert |q| > |Something|;
      AskFirst(AskHead, list + FilterTail);
      assert q == AskHead + (list + FilterTail);
    }
  }

  /** The `size(contexts)` query text: a count over all graphs, narrowed only when contexts are given. */
  method SizeQueryText(contexts: Option<seq<Context>>) returns (q: string)
    ensures contexts.None? || contexts.value == [] ==> q == CountHead + "}"
    ensures contexts.Some? && contexts.value != [] ==>
      q == CountHead + (CountFilterHead + JoinTerms(contexts.value) + CountFilterTail + "}")
    ensures ClassifyQuery(q) == TupleQuery
  {
    var filter := "";
    if contexts.Some? && |contexts.value| > 0 {
      var list := ContextList(contexts.value);
      filter := CountFilterHead + list + CountFilterTail;
    }
    q := CountHead + (filter + "}");
    SelectFirst(CountHead, filter + "}");
  }

  /** The whole-store count is routed as a tuple query too. */
  lemma CountEverythingIsTuple()
    ensures ClassifyQuery(CountEverything) == TupleQuery
  {
    SelectFirst(CountEverything, "");
    assert CountEverything == CountEverything + "";
  }
}
