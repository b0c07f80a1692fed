/**
 The annotation options of llvm-sdg-dump: the `-annotate` string is a
 comma-separated list of tokens, each of which may switch on one category of
 information in the annotated IR. The bitmask of the tool is modelled as a set
 of flags; bits combine by OR, sets by union.
 */
module AnnotationOptions {

  /** One category of annotation (ANNOTATE_DD, _CD, _RD, _PTR, _SLICE). */
  datatype Flag = DataDeps | ControlDeps | ReachingDefs | PointsTo | Slice

  /** Every token the parser recognises. */
  const Vocabulary: set<string> := {"dd", "cd", "rd", "pta", "slice", "sl", "slicer"}

  /** Reference table: the tokens that spell each flag. */
  function Spellings(f: Flag): set<string>
  {
    match f
    case DataDeps => {"dd"}
    case ControlDeps => {"cd"}
    case ReachingDefs => {"rd"}
    case PointsTo => {"pta"}
    case Slice => {"slice", "sl", "slicer"}
  }

  /** The flags one token contributes, tested in the order of the parser's if-chain. */
  function TokenFlags(tok: string): set<Flag>
  {
    if tok == "dd" then {DataDeps}
    else if tok == "cd" then {ControlDeps}
    else if tok == "rd" then {ReachingDefs}
    else if tok == "pta" then {PointsTo}
    else if tok == "slice" || tok == "sl" || tok == "slicer" then {Slice}
    else {}
  }

  /** The flags accumulated over a token list, folded left to right as the loop does. */
  function FlagsOf(toks: seq<string>): set<Flag>
  {
    if toks == [] then {} else FlagsOf(toks[..|toks| - 1]) + TokenFlags(toks[|toks| - 1])
  }

  /** What the parser returns for `annot`, given the tokeniser `splitList`. */
  function AnnotationFlags(annot: string, splitList: string -> seq<string>): set<Flag>
  {
    if annot == "" then {} else FlagsOf(splitList(annot))
  }

  /** ModuleAnnotator::shouldAnnotate: some category was asked for. */
  predicate ShouldAnnotate(opts: set<Flag>)
  {
    opts != {}
  }

  /**
   parseAnnotationOptions: an empty string gives no flags; otherwise every
   token of `splitList(annot)` ORs in the flag it names, unknown tokens are
   skipped.
   */
  method ParseAnnotationOptions(annot: string, splitList: string -> seq<string>)
    returns (opts: set<Flag>)
    ensures opts == AnnotationFlags(annot, splitList)
    ensures forall f: Flag :: f in opts <==>
              annot != "" && exists t :: t in splitList(annot) && t in Spellings(f)
  {
    if annot == "" {
      return {};
    }
    opts := {};
    var lst := splitList(annot);
    for i := 0 to |lst|
      invariant opts == FlagsOf(lst[..i])
    {
      var opt := lst[i];
      assert lst[..i + 1][..i] == lst[..i];
      if opt == "dd" {
        opts := opts + {DataDeps};
      } else if opt == "cd" {
        opts := opts + {ControlDeps};
      } else if opt == "rd" {
        opts := opts + {ReachingDefs};
      } else if opt == "pta" {
        opts := opts + {PointsTo};
      } else if opt == "slice" || opt == "sl" || opt == "slicer" {
        opts := opts + {Slice};
      }
    }
    assert lst[..|lst|] == lst;
    forall f: Flag
      ensures f in opts <==> exists t :: t in lst && t in Spellings(f)
    {
      FlagsOfMembership(lst, f);
    }
  }

  /** A token names a flag exactly when the reference table lists it; no token names two. */
  lemma TokenFlagsMatchSpellings(tok: string, f: Flag)
    ensures f in TokenFlags(tok) <==> tok in Spellings(f)
    ensures |TokenFlags(tok)| <= 1
    ensures TokenFlags(tok) == {} <==> tok !in Vocabulary
  {
  }

  /** The three slice spellings are synonyms; the other four flags have one spelling each. */
  lemma SpellingsPartitionVocabulary(f: Flag, g: Flag)
    ensures f != g ==> Spellings(f) !! Spellings(g)
    ensures Spellings(f) != {} && Spellings(f) <= Vocabulary
    ensures f != Slice ==> |Spellings(f)| == 1
    ensures Spellings(Slice) == {"slice", "sl", "slicer"}
  {
  }

  /** The parse result is exactly the union of the flags of the tokens present. */
  lemma {:induction false} FlagsOfMembership(toks: seq<string>, f: Flag)
    ensures f in FlagsOf(toks) <==> exists t :: t in toks && t in Spellings(f)
  {
    if toks != [] {
      var init, last := toks[..|toks| - 1], toks[|toks| - 1];
      assert toks == init + [last];
      FlagsOfMembership(init, f);
      TokenFlagsMatchSpellings(last, f);
      if f in FlagsOf(toks) {
        if f in FlagsOf(init) {
          var t :| t in init && t in Spellings(f);
          assert t in toks;
        } else {
          assert last in toks && last in Spellings(f);
        }
      } else {
        forall t | t in toks
          ensures t !in Spellings(f)
        {
          if t !in init {
            assert t == last;
          }
        }
      }
    }
  }

  /** Two token lists with the same tokens, in any order and multiplicity, parse alike. */
  lemma FlagsOfSameTokens(a: seq<string>, b: seq<string>)
    requires forall t :: t in a <==> t in b
    ensures FlagsOf(a) == FlagsOf(b)
  {
    forall f: Flag
      ensures f in FlagsOf(a) <==> f in FlagsOf(b)
    {
      FlagsOfMembership(a, f);
      FlagsOfMembership(b, f);
    }
  }

  /** Permuting the token list does not change the flags. */
  lemma FlagsOfPermutation(a: seq<string>, b: seq<string>)
    requires multiset(a) == multiset(b)
    ensures FlagsOf(a) == FlagsOf(b)
  {
    forall t
      ensures t in a <==> t in b
    {
      assert t in a <==> t in multiset(a);
      assert t in b <==> t in multiset(b);
    }
    FlagsOfSameTokens(a, b);
  }

  /** Repeating a token anywhere in the list does not change the flags. */
  lemma FlagsOfRepeat(a: seq<string>, b: seq<string>, k: nat)
    requires k < |a + b|
    ensures FlagsOf(a + [(a + b)[k]] + b) == FlagsOf(a + b)
  {
    var t := (a + b)[k];
    forall u
      ensures u in a + [t] + b <==> u in a + b
    {
      assert u in a + [t] + b <==> u in a || u == t || u in b;
      assert u in a + b <==> u in a || u in b;
    }
    FlagsOfSameTokens(a + [t] + b, a + b);
  }

  /** A token outside the vocabulary contributes nothing, wherever it stands. */
  lemma FlagsOfUnknownInert(a: seq<string>, t: string, b: seq<string>)
    requires t !in Vocabulary
    ensures FlagsOf(a + [t] + b) == FlagsOf(a + b)
  {
    forall f: Flag
      ensures f in FlagsOf(a + [t] + b) <==> f in FlagsOf(a + b)
    {
      FlagsOfMembership(a + [t] + b, f);
      FlagsOfMembership(a + b, f);
      TokenFlagsMatchSpellings(t, f);
      if f in FlagsOf(a + [t] + b) {
        var u :| u in a + [t] + b && u in Spellings(f);
        assert u in a + b;
      } else {
        forall u | u in a + b
          ensures u !in Spellings(f)
        {
          assert u in a + [t] + b;
        }
      }
    }
  }

  /** Flags of concatenated token lists compose by union (bitwise OR). */
  lemma {:induction false} FlagsOfAppend(a: seq<string>, b: seq<string>)
    ensures FlagsOf(a + b) == FlagsOf(a) + FlagsOf(b)
  {
    if b != [] {
      var init, last := b[..|b| - 1], b[|b| - 1];
      assert (a + b)[..|a + b| - 1] == a + init;
      assert (a + b)[|a + b| - 1] == last;
      FlagsOfAppend(a, init);
    } else {
      assert a + b == a;
    }
  }

  /** An empty annotation string asks for nothing, whatever the tokeniser does. */
  lemma EmptyAnnotationDisablesAnnotator(splitList: string -> seq<string>)
    ensures AnnotationFlags("", splitList) == {}
    ensures !ShouldAnnotate(AnnotationFlags("", splitList))
  {
  }

  /** The annotator runs exactly when some token of a non-empty string is recognised. */
  lemma ShouldAnnotateIff(annot: string, splitList: string -> seq<string>)
    ensures ShouldAnnotate(AnnotationFlags(annot, splitList))
        <==> annot != "" && exists t :: t in splitList(annot) && t in Vocabulary
  {
    if annot != "" {
      var toks := splitList(annot);
      if ShouldAnnotate(FlagsOf(toks)) {
        var f :| f in FlagsOf(toks);
        FlagsOfMembership(toks, f);
        var t :| t in toks && t in Spellings(f);
        SpellingsPartitionVocabulary(f, f);
        assert t in Vocabulary;
      } else {
        forall t | t in toks
          ensures t !in Vocabulary
        {
          if t in Vocabulary {
            TokenFlagsMatchSpellings(t, DataDeps);
            var f :| f in TokenFlags(t);
            TokenFlagsMatchSpellings(t, f);
            FlagsOfMembership(toks, f);
          }
        }
      }
    }
  }
}
