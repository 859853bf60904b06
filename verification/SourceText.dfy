/** `source_bytes_for_hash`: line endings are normalised to LF in text files, so that the hash of a source
    does not depend on how it was checked out. */
module SourceText {
  import opened Text

  const CR: byte := 13
  const LF: byte := 10

  /** `data.replace(b"\r\n", b"\n")`. */
  function ReplaceCrLf(d: bytes): bytes {
    if d == [] then []
    else if |d| >= 2 && d[0] == CR && d[1] == LF then [LF] + ReplaceCrLf(d[2..])
    else [d[0]] + ReplaceCrLf(d[1..])
  }

  /** `data.replace(b"\r", b"\n")`. */
  function ReplaceCr(d: bytes): bytes {
    if d == [] then [] else [if d[0] == CR then LF else d[0]] + ReplaceCr(d[1..])
  }

  function Normalize(d: bytes): bytes {
    ReplaceCr(ReplaceCrLf(d))
  }

  /** `source_bytes_for_hash` and `_source_bytes`; `isText` is whether the suffix is one of the text suffixes. */
  function SourceBytes(isText: bool, d: bytes): bytes {
    if isText then Normalize(d) else d
  }

  // ----- The two replacements in one pass -----

  /** Each of CRLF, CR and LF ends a line. */
  function OnePass(d: bytes): bytes {
    if d == [] then []
    else if d[0] != CR then [d[0]] + OnePass(d[1..])
    else [LF] + OnePass(if |d| >= 2 && d[1] == LF then d[2..] else d[1..])
  }

  lemma {:induction false} NormalizeIsOnePass(d: bytes)
    ensures Normalize(d) == OnePass(d)
  {
    if d != [] {
      var rest := if |d| >= 2 && d[0] == CR && d[1] == LF then d[2..] else d[1..];
      NormalizeIsOnePass(rest);
      var r := ReplaceCrLf(d);
      assert r[1..] == ReplaceCrLf(rest);
      assert Normalize(d) == [if r[0] == CR then LF else r[0]] + ReplaceCr(r[1..]);
    }
  }

  lemma {:induction false} NormalizedHasNoCr(d: bytes)
    ensures CR !in Normalize(d)
  {
    NormalizeIsOnePass(d);
    if d != [] {
      var rest := if |d| >= 2 && d[0] == CR && d[1] == LF then d[2..] else d[1..];
      NormalizedHasNoCr(rest);
      NormalizeIsOnePass(rest);
    }
  }

  lemma NotInRest(d: bytes, b: byte)
    requires d != [] && b !in d
    ensures d[0] != b && b !in d[1..]
  {
  }

  lemma {:induction false} NothingToNormalize(d: bytes)
    requires CR !in d
    ensures OnePass(d) == d
  {
    if d != [] {
      NotInRest(d, CR);
      NothingToNormalize(d[1..]);
    }
  }

  /** Normalising is idempotent, and changes nothing exactly when there is no CR. */
  lemma NormalizeIdempotent(d: bytes)
    ensures Normalize(Normalize(d)) == Normalize(d)
    ensures Normalize(d) == d <==> CR !in d
  {
    NormalizedHasNoCr(d);
    NormalizeIsOnePass(Normalize(d));
    NothingToNormalize(Normalize(d));
    if CR !in d {
      NormalizeIsOnePass(d);
      NothingToNormalize(d);
    }
  }

  // ----- Checkouts of one text -----

  /** How a checkout may end a line. */
  datatype Ending = Lf | CrLf | Cr {
    function Bytes(): bytes {
      match this
      case Lf => [LF]
      case CrLf => [CR, LF]
      case Cr => [CR]
    }
  }

  predicate PlainLine(line: bytes) {
    CR !in line && LF !in line
  }

  /** A text as lines, the last of them not ended, checked out with one ending per line. */
  function Checkout(lines: seq<bytes>, endings: seq<Ending>, last: bytes): bytes
    requires |endings| == |lines|
  {
    if lines == [] then last
    else lines[0] + endings[0].Bytes() + Checkout(lines[1..], endings[1..], last)
  }

  function Uniform(n: nat, e: Ending): seq<Ending> {
    seq(n, _ => e)
  }

  /** No CR is directly followed by the LF of an empty line, which together would read as one ending. */
  predicate Unambiguous(lines: seq<bytes>, endings: seq<Ending>)
    requires |endings| == |lines|
  {
    forall i | 0 <= i < |lines| - 1 && lines[i + 1] == [] && endings[i].Cr? :: !endings[i + 1].Lf?
  }

  lemma {:induction false} LineOnePass(line: bytes, rest: bytes)
    requires PlainLine(line)
    ensures OnePass(line + rest) == line + OnePass(rest)
  {
    if line == [] {
      assert line + rest == rest;
    } else {
      NotInRest(line, CR);
      NotInRest(line, LF);
      LineOnePass(line[1..], rest);
      assert (line + rest)[1..] == line[1..] + rest;
      assert line == [line[0]] + line[1..];
    }
  }

  lemma EndingOnePass(e: Ending, rest: bytes)
    requires e.Cr? ==> rest == [] || rest[0] != LF
    ensures OnePass(e.Bytes() + rest) == [LF] + OnePass(rest)
  {
    var d := e.Bytes() + rest;
    match e {
      case Lf => assert d[1..] == rest;
      case CrLf => assert d[2..] == rest;
      case Cr => assert d[1..] == rest;
    }
  }

  lemma Regrouped(line: bytes, mid: bytes, rest: bytes)
    ensures line + (mid + rest) == line + mid + rest
  {
  }

  /** One line of a checkout. */
  lemma LineNormalizes(line: bytes, e: Ending, rest: bytes)
    requires PlainLine(line) && (e.Cr? ==> rest == [] || rest[0] != LF)
    ensures OnePass(line + e.Bytes() + rest) == line + [LF] + OnePass(rest)
  {
    EndingOnePass(e, rest);
    LineOnePass(line, e.Bytes() + rest);
    Regrouped(line, e.Bytes(), rest);
    Regrouped(line, [LF], OnePass(rest));
  }

  lemma UnambiguousRest(lines: seq<bytes>, endings: seq<Ending>)
    requires |endings| == |lines| && lines != [] && Unambiguous(lines, endings)
    ensures Unambiguous(lines[1..], endings[1..])
  {
    var more, ends := lines[1..], endings[1..];
    forall i | 0 <= i < |more| - 1 && more[i + 1] == [] && ends[i].Cr?
      ensures !ends[i + 1].Lf?
    {
      assert lines[i + 2] == [] && endings[i + 1].Cr?;
    }
  }

  lemma UniformRest(n: nat)
    requires n > 0
    ensures Uniform(n, Lf)[0] == Lf && Uniform(n, Lf)[1..] == Uniform(n - 1, Lf)
  {
  }

  /** Whatever the endings, the normalised bytes are those of the LF checkout. */
  lemma {:induction false} CheckoutNormalizes(lines: seq<bytes>, endings: seq<Ending>, last: bytes)
    requires |endings| == |lines| && Unambiguous(lines, endings)
    requires PlainLine(last) && forall i | 0 <= i < |lines| :: PlainLine(lines[i])
    ensures Normalize(Checkout(lines, endings, last)) == Checkout(lines, Uniform(|lines|, Lf), last)
    decreases |lines|
  {
    NormalizeIsOnePass(Checkout(lines, endings, last));
    if lines == [] {
      NothingToNormalize(last);
    } else {
      var rest := Checkout(lines[1..], endings[1..], last);
      UnambiguousRest(lines, endings);
      CheckoutNormalizes(lines[1..], endings[1..], last);
      NormalizeIsOnePass(rest);
      if endings[0].Cr? {
        RestStart(lines, endings, last);
      }
      LineNormalizes(lines[0], endings[0], rest);
      UniformRest(|lines|);
    }
  }

  lemma RestStart(lines: seq<bytes>, endings: seq<Ending>, last: bytes)
    requires |endings| == |lines| && lines != [] && Unambiguous(lines, endings)
    requires PlainLine(last) && forall i | 0 <= i < |lines| :: PlainLine(lines[i])
    requires endings[0].Cr?
    ensures Checkout(lines[1..], endings[1..], last) == [] || Checkout(lines[1..], endings[1..], last)[0] != LF
  {
    if |lines| > 1 {
      if lines[1] != [] {
        assert lines[1][0] in lines[1];
      } else {
        assert !endings[1].Lf?;
      }
    } else if last != [] {
      assert last[0] in last;
    }
  }

  /** LF, CRLF and CR checkouts of one text normalise to the same bytes. */
  lemma CheckoutsAgree(lines: seq<bytes>, last: bytes, e: Ending, f: Ending)
    requires PlainLine(last) && forall i | 0 <= i < |lines| :: PlainLine(lines[i])
    ensures (SourceBytes(true, Checkout(lines, Uniform(|lines|, e), last))
             == SourceBytes(true, Checkout(lines, Uniform(|lines|, f), last)))
  {
    CheckoutNormalizes(lines, Uniform(|lines|, e), last);
    CheckoutNormalizes(lines, Uniform(|lines|, f), last);
  }

  // ----- Mixed endings, exactly -----

  /** How many lines the bytes end, when only LF ends one. */
  function Ends(d: bytes): nat {
    if d == [] then 0 else (if d[0] == LF then 1 else 0) + Ends(d[1..])
  }

  lemma {:induction false} EndsConcat(a: bytes, b: bytes)
    ensures Ends(a + b) == Ends(a) + Ends(b)
  {
    if a == [] {
      assert a + b == b;
    } else {
      assert (a + b)[1..] == a[1..] + b;
      EndsConcat(a[1..], b);
    }
  }

  lemma {:induction false} PlainEndsNothing(line: bytes)
    requires PlainLine(line)
    ensures Ends(line) == 0
  {
    if line != [] {
      NotInRest(line, CR);
      NotInRest(line, LF);
      PlainEndsNothing(line[1..]);
    }
  }

  lemma {:induction false} EndsOfLf(lines: seq<bytes>, last: bytes)
    requires PlainLine(last) && forall i | 0 <= i < |lines| :: PlainLine(lines[i])
    ensures Ends(Checkout(lines, Uniform(|lines|, Lf), last)) == |lines|
  {
    if lines == [] {
      PlainEndsNothing(last);
    } else {
      UniformRest(|lines|);
      EndsOfLf(lines[1..], last);
      var rest := Checkout(lines[1..], Uniform(|lines| - 1, Lf), last);
      EndsConcat(lines[0] + [LF], rest);
      EndsConcat(lines[0], [LF]);
      PlainEndsNothing(lines[0]);
    }
  }

  /** A CR in front of an LF: the two ends are read as one. */
  lemma MergedEnds(line: bytes, rest: bytes)
    requires PlainLine(line) && rest != [] && rest[0] == LF
    ensures Ends(OnePass(line + [CR] + rest)) == Ends(OnePass(rest))
  {
    var d := [CR] + rest;
    assert d[2..] == rest[1..] && line + [CR] + rest == line + d;
    LineOnePass(line, d);
    EndsConcat(line, OnePass(d));
    PlainEndsNothing(line);
  }

  lemma SeparateEnds(line: bytes, e: Ending, rest: bytes)
    requires PlainLine(line) && (e.Cr? ==> rest == [] || rest[0] != LF)
    ensures Ends(OnePass(line + e.Bytes() + rest)) == 1 + Ends(OnePass(rest))
  {
    LineNormalizes(line, e, rest);
    EndsConcat(line + [LF], OnePass(rest));
    EndsConcat(line, [LF]);
    PlainEndsNothing(line);
  }

  /** Where the ambiguity of a text lies. */
  lemma AmbiguousWhere(lines: seq<bytes>, endings: seq<Ending>, last: bytes)
    requires |endings| == |lines| && lines != [] && !Unambiguous(lines, endings)
    ensures !Unambiguous(lines[1..], endings[1..])
            || (endings[0].Cr? && Checkout(lines[1..], endings[1..], last) != []
                && Checkout(lines[1..], endings[1..], last)[0] == LF)
  {
    var i :| 0 <= i < |lines| - 1 && lines[i + 1] == [] && endings[i].Cr? && endings[i + 1].Lf?;
    if i > 0 {
      assert lines[1..][i] == [] && endings[1..][i - 1].Cr? && endings[1..][i].Lf?;
    }
  }

  /** Normalising never reads more lines than there are, and fewer as soon as the text is ambiguous. */
  lemma {:induction false} EndsRead(lines: seq<bytes>, endings: seq<Ending>, last: bytes)
    requires |endings| == |lines|
    requires PlainLine(last) && forall i | 0 <= i < |lines| :: PlainLine(lines[i])
    ensures Ends(OnePass(Checkout(lines, endings, last))) <= |lines|
    ensures !Unambiguous(lines, endings) ==> Ends(OnePass(Checkout(lines, endings, last))) < |lines|
    decreases |lines|
  {
    if lines == [] {
      NothingToNormalize(last);
      PlainEndsNothing(last);
    } else {
      var rest := Checkout(lines[1..], endings[1..], last);
      EndsRead(lines[1..], endings[1..], last);
      if endings[0].Cr? && rest != [] && rest[0] == LF {
        MergedEnds(lines[0], rest);
      } else {
        SeparateEnds(lines[0], endings[0], rest);
        if !Unambiguous(lines, endings) {
          AmbiguousWhere(lines, endings, last);
        }
      }
    }
  }

  /** A checkout with mixed endings normalises to the LF checkout exactly when no CR meets the LF of an empty line. */
  lemma CheckoutNormalizesIff(lines: seq<bytes>, endings: seq<Ending>, last: bytes)
    requires |endings| == |lines|
    requires PlainLine(last) && forall i | 0 <= i < |lines| :: PlainLine(lines[i])
    ensures Normalize(Checkout(lines, endings, last)) == Checkout(lines, Uniform(|lines|, Lf), last) <==>
              Unambiguous(lines, endings)
  {
    if Unambiguous(lines, endings) {
      CheckoutNormalizes(lines, endings, last);
    } else {
      NormalizeIsOnePass(Checkout(lines, endings, last));
      EndsRead(lines, endings, last);
      EndsOfLf(lines, last);
    }
  }

  /** The smallest case: two empty lines ended by CR and by LF read as one. */
  lemma MixedEndingsMerge()
    ensures !Unambiguous([[], []], [Cr, Lf])
    ensures Normalize(Checkout([[], []], [Cr, Lf], [])) != Checkout([[], []], Uniform(2, Lf), [])
  {
    var lines: seq<bytes> := [[], []];
    assert lines[1..][1..] == [] && [Cr, Lf][1..] == [Lf];
    var d := Checkout(lines, [Cr, Lf], []);
    assert Checkout(lines[1..], [Lf], []) == [LF];
    assert d == [CR, LF];
    assert d[2..] == [];
    NormalizeIsOnePass(d);
    var u := Uniform(2, Lf);
    assert u[0] == Lf && u[1..][0] == Lf;
    assert Checkout(lines[1..], u[1..], []) == [LF];
    assert Checkout(lines, u, []) == [LF, LF];
    assert lines[0 + 1] == [] && [Cr, Lf][0].Cr? && [Cr, Lf][0 + 1].Lf?;
  }
}
