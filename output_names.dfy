/**
 The names of the two files llvm-sdg-dump writes: the annotated IR
 (ModuleAnnotator::annotate) and the graph export (SDGDumper::dumpToDot).
 Both start from the input file path.
 */
module OutputNames {

  datatype Option<T> = None | Some(value: T)

  /** Text that replaces the last three characters of the input path. */
  const DebugSuffix: string := "-debug.ll"

  /** Suffix used by dumpToDot when the caller passes none. */
  const DefaultDotSuffix: string := ".dot"

  /**
   The annotated IR file: all but the last three characters of the input path
   (the `.bc` or `.ll` extension), followed by `-debug.ll`. A path shorter than
   three characters is outside what the tool handles.
   */
  function AnnotatedFileName(inputFile: string): (fl: string)
    requires |inputFile| >= 3
    ensures |fl| == |inputFile| - 3 + |DebugSuffix|
    ensures fl[..|inputFile| - 3] == inputFile[..|inputFile| - 3]
    ensures fl[|inputFile| - 3..] == DebugSuffix
  {
    inputFile[..|inputFile| - 3] + DebugSuffix
  }

  /** The stem of an annotated file name: what precedes `-debug.ll`. */
  function AnnotatedStem(fl: string): string
    requires |fl| >= |DebugSuffix|
  {
    fl[..|fl| - |DebugSuffix|]
  }

  /** Removing `-debug.ll` recovers the input path without its last three characters. */
  lemma AnnotatedStemInverts(inputFile: string)
    requires |inputFile| >= 3
    ensures AnnotatedStem(AnnotatedFileName(inputFile)) == inputFile[..|inputFile| - 3]
  {
  }

  /** Two inputs get the same annotated file exactly when they agree up to their last three characters. */
  lemma AnnotatedFileNameCollision(p: string, q: string)
    requires |p| >= 3 && |q| >= 3
    ensures AnnotatedFileName(p) == AnnotatedFileName(q) <==> p[..|p| - 3] == q[..|q| - 3]
  {
  }

  /** The example the tool is meant for: `foo.bc` becomes `foo-debug.ll`. */
  lemma AnnotatedFileNameExample()
    ensures AnnotatedFileName("foo.bc") == "foo-debug.ll"
  {
  }

  /** dumpToDot's choice of suffix: the caller's when one is passed, `.dot` otherwise. */
  function DotSuffix(suffix: Option<string>): string
  {
    match suffix
    case Some(s) => s
    case None => DefaultDotSuffix
  }

  /** The dot file name, given the suffix-replacing helper `replaceSuffix`. */
  function DotFileName(inputFile: string, suffix: Option<string>,
                       replaceSuffix: (string, string) -> string): string
  {
    replaceSuffix(inputFile, DotSuffix(suffix))
  }

  /**
   Passing no suffix is the same as passing `.dot`; a passed suffix, even the
   empty one, is used unchanged.
   */
  lemma DotFileNameChoice(inputFile: string, suffix: Option<string>,
                          replaceSuffix: (string, string) -> string)
    ensures DotFileName(inputFile, None, replaceSuffix)
         == DotFileName(inputFile, Some(DefaultDotSuffix), replaceSuffix)
    ensures suffix.Some? ==>
              DotFileName(inputFile, suffix, replaceSuffix) == replaceSuffix(inputFile, suffix.value)
    ensures DotSuffix(suffix) == DefaultDotSuffix <==> suffix in {None, Some(DefaultDotSuffix)}
  {
  }
}
