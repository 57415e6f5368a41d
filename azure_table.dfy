/**
  Loading the vector table (src/azure_table.rs, `get_all_vectors`).

  The table is read as a stream of pages; each page is either a list of raw
  entities or an error.  Every raw entity becomes exactly one formatted entity:
  keys are copied, missing optional fields get a sentinel, and the
  comma-separated vector string keeps only the pieces the number parser
  accepts.  The parser is abstract: any partial function `string -> Option<F>`.
*/
module AzureTable {
  import opened Wrappers

  /** A row as stored in the table (`VectorEntity`). */
  datatype RawEntity = RawEntity(
    category: string,            // the table's PartitionKey
    id: string,                  // the table's RowKey
    timestamp: Option<string>,
    vector: string,
    content: Option<string>)

  /** A row after conversion (`FormattedVectorEntity`). */
  datatype Entity<F> = Entity(
    id: string,
    category: string,
    timestamp: string,
    vector: seq<F>,
    content: string)

  /** One result of the paged query stream. */
  type Page<E> = Result<seq<RawEntity>, E>

  const UnknownTimestamp: string := "unknown"
  const MissingContent: string := "N/A"

  // ---------------------------------------------------------------------------
  // Splitting on ',' (Rust's `str::split(',')`)
  // ---------------------------------------------------------------------------

  /** Number of commas in `s`. */
  function CommaCount(s: string): nat {
    multiset(s)[',']
  }

  /** The pieces of `s` between commas; empty pieces are kept, and the empty
      string gives one empty piece, as `split` does. */
  function Split(s: string): (pieces: seq<string>)
    ensures |pieces| >= 1
  {
    if |s| == 0 then [""]
    else
      var rest := Split(s[1..]);
      if s[0] == ',' then [""] + rest
      else [[s[0]] + rest[0]] + rest[1..]
  }

  /** Pieces glued back together with ','. */
  function Join(pieces: seq<string>): string
    requires |pieces| >= 1
  {
    if |pieces| == 1 then pieces[0] else pieces[0] + [','] + Join(pieces[1..])
  }

  /** No piece of a split contains the separator. */
  lemma {:induction false} SplitPiecesHaveNoComma(s: string)
    ensures forall i :: 0 <= i < |Split(s)| ==> ',' !in Split(s)[i]
  {
    if |s| > 0 {
      SplitPiecesHaveNoComma(s[1..]);
    }
  }

  /** There is one more piece than there are commas. */
  lemma {:induction false} SplitCount(s: string)
    ensures |Split(s)| == CommaCount(s) + 1
  {
    if |s| > 0 {
      SplitCount(s[1..]);
      assert s == [s[0]] + s[1..];
      assert multiset(s) == multiset{s[0]} + multiset(s[1..]);
    }
  }

  /** Joining the pieces with ',' gives back the original string. */
  lemma {:induction false} JoinSplit(s: string)
    ensures Join(Split(s)) == s
  {
    if |s| > 0 {
      var rest := Split(s[1..]);
      JoinSplit(s[1..]);
      if s[0] == ',' {
        assert Split(s)[1..] == rest;
      } else {
        var pieces := Split(s);
        if |rest| == 1 {
          assert pieces == [[s[0]] + rest[0]];
        } else {
          assert pieces[1..] == rest[1..];
          assert Join(rest) == rest[0] + [','] + Join(rest[1..]);
        }
      }
    }
  }

  /** A comma-free prefix is one piece of its own. */
  lemma {:induction false} SplitAfterPiece(a: string, b: string)
    requires ',' !in a
    ensures Split(a + [','] + b) == [a] + Split(b)
    ensures Split(a) == [a]
  {
    if |a| > 0 {
      SplitAfterPiece(a[1..], b);
      assert (a + [','] + b)[1..] == a[1..] + [','] + b;
      assert [a[0]] + a[1..] == a;
    } else {
      assert a + [','] + b == [','] + b;
    }
  }

  /** Splitting a join of comma-free pieces gives back the pieces. */
  lemma {:induction false} SplitJoin(pieces: seq<string>)
    requires |pieces| >= 1
    requires forall i :: 0 <= i < |pieces| ==> ',' !in pieces[i]
    ensures Split(Join(pieces)) == pieces
  {
    if |pieces| == 1 {
      SplitAfterPiece(pieces[0], "");
    } else {
      SplitJoin(pieces[1..]);
      SplitAfterPiece(pieces[0], Join(pieces[1..]));
      assert [pieces[0]] + pieces[1..] == pieces;
    }
  }

  // ---------------------------------------------------------------------------
  // Keeping the pieces that parse (`filter_map(|v| v.parse().ok())`)
  // ---------------------------------------------------------------------------

  /** The parsed values of the pieces that parse, in order. */
  function FilterParse<F>(pieces: seq<string>, parse: string -> Option<F>): (values: seq<F>)
    ensures |values| <= |pieces|
  {
    if pieces == [] then []
    else
      (match parse(pieces[0])
       case Some(v) => [v]
       case None => []) + FilterParse(pieces[1..], parse)
  }

  /** Positions of the pieces that parse, in increasing order. */
  function ParsedPositions<F>(pieces: seq<string>, parse: string -> Option<F>, from: nat): (ps: seq<nat>)
    requires from <= |pieces|
    decreases |pieces| - from
  {
    if from == |pieces| then []
    else if parse(pieces[from]).Some? then [from] + ParsedPositions(pieces, parse, from + 1)
    else ParsedPositions(pieces, parse, from + 1)
  }

  /** `FilterParse` keeps exactly the pieces that parse: the `t`-th value is
      the parse of the `t`-th parseable piece, in increasing piece order. */
  lemma {:induction false} FilterParseCharacterized<F>(pieces: seq<string>, parse: string -> Option<F>, from: nat)
    requires from <= |pieces|
    ensures var ps := ParsedPositions(pieces, parse, from);
            var values := FilterParse(pieces[from..], parse);
            && |values| == |ps|
            && (forall t :: 0 <= t < |ps| ==> from <= ps[t] < |pieces| && parse(pieces[ps[t]]) == Some(values[t]))
            && (forall t, u :: 0 <= t < u < |ps| ==> ps[t] < ps[u])
    decreases |pieces| - from
  {
    if from < |pieces| {
      FilterParseCharacterized(pieces, parse, from + 1);
      var ps' := ParsedPositions(pieces, parse, from + 1);
      var values' := FilterParse(pieces[from + 1..], parse);
      assert pieces[from..][1..] == pieces[from + 1..];
      match parse(pieces[from]) {
        case Some(v) =>
          assert ParsedPositions(pieces, parse, from) == [from] + ps';
          assert FilterParse(pieces[from..], parse) == [v] + values';
        case None =>
          assert ParsedPositions(pieces, parse, from) == ps';
          assert FilterParse(pieces[from..], parse) == values';
      }
    }
  }

  /** A piece is used iff it parses: unparseable pieces are skipped and
      nothing else is. */
  lemma {:induction false} ParsedPositionsExact<F>(pieces: seq<string>, parse: string -> Option<F>, from: nat)
    requires from <= |pieces|
    ensures forall i :: from <= i < |pieces| ==> (i in ParsedPositions(pieces, parse, from) <==> parse(pieces[i]).Some?)
    ensures forall t :: 0 <= t < |ParsedPositions(pieces, parse, from)| ==> from <= ParsedPositions(pieces, parse, from)[t]
    decreases |pieces| - from
  {
    if from < |pieces| {
      ParsedPositionsExact(pieces, parse, from + 1);
    }
  }

  /** Filter-parsing distributes over concatenation of piece lists. */
  lemma {:induction false} FilterParseAppend<F>(a: seq<string>, b: seq<string>, parse: string -> Option<F>)
    ensures FilterParse(a + b, parse) == FilterParse(a, parse) + FilterParse(b, parse)
  {
    if a != [] {
      FilterParseAppend(a[1..], b, parse);
      assert (a + b)[1..] == a[1..] + b;
    } else {
      assert a + b == b;
    }
  }

  /** When every piece parses, nothing is dropped. */
  lemma {:induction false} FilterParseAllParse<F>(pieces: seq<string>, parse: string -> Option<F>)
    requires forall i :: 0 <= i < |pieces| ==> parse(pieces[i]).Some?
    ensures |FilterParse(pieces, parse)| == |pieces|
    ensures forall i :: 0 <= i < |pieces| ==> Some(FilterParse(pieces, parse)[i]) == parse(pieces[i])
  {
    if pieces != [] {
      FilterParseAllParse(pieces[1..], parse);
    }
  }

  // ---------------------------------------------------------------------------
  // Converting one entity
  // ---------------------------------------------------------------------------

  /** The vector of a raw entity: the parseable comma-separated pieces. */
  function ParseVector<F>(raw: string, parse: string -> Option<F>): (v: seq<F>)
    ensures v == FilterParse(Split(raw), parse)
    ensures |v| <= CommaCount(raw) + 1
  {
    SplitCount(raw);
    FilterParse(Split(raw), parse)
  }

  /** Conversion of one raw entity; it never fails. */
  function Format<F>(e: RawEntity, parse: string -> Option<F>): (r: Entity<F>)
    ensures r.id == e.id && r.category == e.category
    ensures r.timestamp == if e.timestamp.Some? then e.timestamp.value else UnknownTimestamp
    ensures r.content == if e.content.Some? then e.content.value else MissingContent
    ensures r.vector == FilterParse(Split(e.vector), parse)
    ensures |r.vector| <= CommaCount(e.vector) + 1
  {
    Entity(
      e.id,
      e.category,
      match e.timestamp case Some(t) => t case None => UnknownTimestamp,
      ParseVector(e.vector, parse),
      match e.content case Some(c) => c case None => MissingContent)
  }

  /** Per-entity conversion of a list, one output per input, in order. */
  function FormatAll<F>(es: seq<RawEntity>, parse: string -> Option<F>): (rs: seq<Entity<F>>)
  {
    seq(|es|, i requires 0 <= i < |es| => Format(es[i], parse))
  }

  // ---------------------------------------------------------------------------
  // The paged load
  // ---------------------------------------------------------------------------

  predicate AllOk<E>(pages: seq<Page<E>>) {
    forall i :: 0 <= i < |pages| ==> pages[i].Success?
  }

  /** The entities of all pages, page after page. */
  function Entities<E>(pages: seq<Page<E>>): seq<RawEntity>
    requires AllOk(pages)
  {
    if pages == [] then [] else Entities(pages[..|pages| - 1]) + pages[|pages| - 1].value
  }

  /** Position of the first page that is an error. */
  function FirstError<E>(pages: seq<Page<E>>): (i: nat)
    requires !AllOk(pages)
    ensures i < |pages| && pages[i].Failure?
    ensures AllOk(pages[..i])
  {
    if pages[0].Failure? then 0
    else
      var j := FirstError(pages[1..]);
      assert pages[..j + 1] == [pages[0]] + pages[1..][..j];
      j + 1
  }

  /** `get_all_vectors`: walks the pages in order; the first error page ends the
      load with that error, otherwise every entity of every page is converted. */
  method GetAllVectors<F, E>(pages: seq<Page<E>>, parse: string -> Option<F>)
    returns (r: Result<seq<Entity<F>>, E>)
    ensures r.Success? <==> AllOk(pages)
    ensures AllOk(pages) ==> r == Success(FormatAll(Entities(pages), parse))
    ensures !AllOk(pages) ==> r == Failure(pages[FirstError(pages)].error)
  {
    var formatted: seq<Entity<F>> := [];
    var i := 0;
    while i < |pages|
      invariant 0 <= i <= |pages|
      invariant AllOk(pages[..i])
      invariant formatted == FormatAll(Entities(pages[..i]), parse)
    {
      if pages[i].Failure? {
        FirstErrorIs(pages, i);
        return Failure(pages[i].error);
      }
      var entities := pages[i].value;
      assert pages[..i + 1][..i] == pages[..i];
      FormatAllAppend(Entities(pages[..i]), entities, parse);
      formatted := PushFormatted(formatted, entities, parse);
      i := i + 1;
    }
    assert pages[..i] == pages;
    return Success(formatted);
  }

  /** Converting two lists one after the other is converting their
      concatenation. */
  lemma FormatAllAppend<F>(a: seq<RawEntity>, b: seq<RawEntity>, parse: string -> Option<F>)
    ensures FormatAll(a + b, parse) == FormatAll(a, parse) + FormatAll(b, parse)
  {
  }

  /** The inner loop of `get_all_vectors`: push the conversion of every
      entity of one page, in order. */
  method PushFormatted<F>(formatted: seq<Entity<F>>, entities: seq<RawEntity>, parse: string -> Option<F>)
    returns (r: seq<Entity<F>>)
    ensures r == formatted + FormatAll(entities, parse)
  {
    r := formatted;
    for j := 0 to |entities|
      invariant r == formatted + FormatAll(entities[..j], parse)
    {
      FormatAllAppend(entities[..j], [entities[j]], parse);
      assert entities[..j + 1] == entities[..j] + [entities[j]];
      r := r + [Format(entities[j], parse)];
    }
    assert entities[..|entities|] == entities;
  }

  /** A page that is an error after only good pages is the first error. */
  lemma {:induction false} FirstErrorIs<E>(pages: seq<Page<E>>, i: nat)
    requires i < |pages| && pages[i].Failure? && AllOk(pages[..i])
    ensures !AllOk(pages) && FirstError(pages) == i
  {
    if i > 0 {
      assert pages[1..][..i - 1] == pages[1..i];
      FirstErrorIs(pages[1..], i - 1);
    }
  }

  /** Entities of consecutive page runs are concatenated in page order. */
  lemma {:induction false} EntitiesAppend<E>(a: seq<Page<E>>, b: seq<Page<E>>)
    requires AllOk(a) && AllOk(b)
    ensures AllOk(a + b)
    ensures Entities(a + b) == Entities(a) + Entities(b)
    decreases |b|
  {
    assert AllOk(a + b) by {
      forall i | 0 <= i < |a + b| ensures (a + b)[i].Success? {
        if i >= |a| { assert (a + b)[i] == b[i - |a|]; }
      }
    }
    if b == [] {
      assert a + b == a;
    } else {
      var b' := b[..|b| - 1];
      assert AllOk(b');
      EntitiesAppend(a, b');
      assert (a + b)[..|a + b| - 1] == a + b';
    }
  }
}
