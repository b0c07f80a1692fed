# llvm-sdg-dump configuration layer in Dafny

`llvm-sdg-dump` loads an LLVM module, builds its system dependence graph (SDG)
and writes two debugging views of it: an annotated copy of the IR (`.ll`) and a
graph export (`.dot`). This project models the part of the tool that decides
what is written and where:

- **Annotation options** (`annotation_options.dfy`, module `AnnotationOptions`).
  The `-annotate` string is split into tokens; `dd`, `cd`, `rd`, `pta` and
  `slice`/`sl`/`slicer` each switch on one category of annotation, everything
  else is ignored, and an empty string switches on nothing. The tool's bitmask
  is a `set<Flag>`; OR of bits is set union. The parser is a method with the
  tool's loop, proved equal to the left fold `FlagsOf`; the lemmas show that
  the result is exactly the union of the flags of the recognised tokens and so
  does not depend on token order, repetition or unknown tokens, and that the
  annotator runs (`ShouldAnnotate`) exactly when some token is recognised.
- **Output names** (`output_names.dfy`, module `OutputNames`). The annotated
  IR goes to the input path without its last three characters followed by
  `-debug.ll` (`foo.bc` becomes `foo-debug.ll`); the graph export uses the
  caller's suffix if one is passed and `.dot` otherwise.
- **Module header** (`module_header.dfy`, module `ModuleHeader`). The comment
  at the head of the annotated IR records the slicing criteria (quoted
  verbatim), three switches printed by `std::to_string` as `0`/`1`, the pointer
  analysis (`flow-insensitive`, `flow-sensitive`,
  `flow-sensitive with invalidate`, or nothing for any other kind) and the
  field sensitivity (`full` for the UNKNOWN offset, the decimal bound
  otherwise). The method appends in the tool's order and is proved equal to
  `ModuleComment`; the lemmas show where the criteria appear, how the comment
  ends, that the decimal text reads back to its value, and that for the same
  criteria the comment determines every other reported setting.

As the code is written, an analysis kind other than the three named ones
prints nothing after `;   * pointer analysis: `, not even a line break, so the
field-sensitivity entry continues on the same line. The model keeps this.

The tokeniser `splitList` and the helper `replace_suffix` are declared in
`llvm-slicer-utils.h`, which is not part of this model; they are passed in as
function parameters (`splitList: string -> seq<string>`,
`replaceSuffix: (string, string) -> string`) and nothing is assumed about them.
The bit values of the annotation flags are defined in `AnnotationWriter.h` and
the UNKNOWN offset in `Offset.h`; neither is part of this model.

The annotated file name always drops exactly three characters of the input
path, whatever its extension.

## Model

| member | source | states |
|---|---|---|
| `AnnotationOptions.TokenFlags` | tools/llvm-sdg-dump.cpp:197-206 | Defined as the flag set one token contributes, tested in the order of the if-chain: `dd`, `cd`, `rd`, `pta` one flag each, `slice`/`sl`/`slicer` the slice flag, anything else none. |
| `AnnotationOptions.FlagsOf` | tools/llvm-sdg-dump.cpp:194-207 | Defined as the left-to-right fold that ORs in each token's flags, starting from no flags. |
| `AnnotationOptions.AnnotationFlags` | tools/llvm-sdg-dump.cpp:189-210 | Defined as no flags for the empty string, otherwise the fold over the tokens `splitList` returns. |
| `AnnotationOptions.ShouldAnnotate` | tools/llvm-sdg-dump.cpp:134 | Defined as "the flag set is not empty", the `!= 0` test on the bitmask. |
| `AnnotationOptions.ParseAnnotationOptions` | tools/llvm-sdg-dump.cpp:189-210 | The loop's result equals `AnnotationFlags(annot, splitList)` (no flags for an empty string, else the fold over the tokens), and a flag is set exactly when the string is non-empty and some token of the list spells it. |
| `AnnotationOptions.TokenFlagsMatchSpellings` | tools/llvm-sdg-dump.cpp:197-206 | A token sets a flag exactly when the flag's spelling table lists it; no token sets two flags; a token sets nothing exactly when it is outside the seven-word vocabulary. |
| `AnnotationOptions.SpellingsPartitionVocabulary` | tools/llvm-sdg-dump.cpp:197-206 | Different flags have disjoint spellings; `slice`, `sl`, `slicer` all spell the slice flag; each other flag has exactly one spelling; every spelling is in the vocabulary. |
| `AnnotationOptions.FlagsOfMembership` | tools/llvm-sdg-dump.cpp:194-207 | The accumulated flags are exactly the union of the flags of the tokens present in the list. |
| `AnnotationOptions.FlagsOfSameTokens` | tools/llvm-sdg-dump.cpp:196-207 | Two token lists containing the same tokens, in any order and multiplicity, give the same flags. |
| `AnnotationOptions.FlagsOfPermutation` | tools/llvm-sdg-dump.cpp:196-207 | Permuting the token list does not change the flags. |
| `AnnotationOptions.FlagsOfRepeat` | tools/llvm-sdg-dump.cpp:196-207 | Inserting another copy of a token already in the list, anywhere, does not change the flags. |
| `AnnotationOptions.FlagsOfUnknownInert` | tools/llvm-sdg-dump.cpp:196-207 | Inserting a token outside the vocabulary, anywhere, does not change the flags. |
| `AnnotationOptions.FlagsOfAppend` | tools/llvm-sdg-dump.cpp:196-207 | The flags of two concatenated token lists are the union (OR) of their flags. |
| `AnnotationOptions.EmptyAnnotationDisablesAnnotator` | tools/llvm-sdg-dump.cpp:191-192 | An empty option string gives the empty flag set, whatever the tokeniser would return, so the annotator does not run. |
| `AnnotationOptions.ShouldAnnotateIff` | tools/llvm-sdg-dump.cpp:134 | The annotator runs exactly when the option string is non-empty and one of its tokens is in the vocabulary. |
| `OutputNames.AnnotatedFileName` | tools/llvm-sdg-dump.cpp:139-140 | For a path of at least three characters, the name keeps all but the last three characters unchanged, then ends in `-debug.ll`; its length is the path's length plus six. |
| `OutputNames.AnnotatedStemInverts` | tools/llvm-sdg-dump.cpp:139-140 | Removing `-debug.ll` from the annotated name gives back the input path without its last three characters. |
| `OutputNames.AnnotatedFileNameCollision` | tools/llvm-sdg-dump.cpp:139-140 | Two inputs get the same annotated file exactly when they agree on everything but their last three characters. |
| `OutputNames.AnnotatedFileNameExample` | tools/llvm-sdg-dump.cpp:139-140 | `foo.bc` becomes `foo-debug.ll`. |
| `OutputNames.DotSuffix` | tools/llvm-sdg-dump.cpp:104-108 | Defined as the caller's suffix when one is passed and `.dot` when none is. |
| `OutputNames.DotFileName` | tools/llvm-sdg-dump.cpp:102-108 | Defined as the suffix replacement applied to the input path and the chosen suffix. |
| `OutputNames.DotFileNameChoice` | tools/llvm-sdg-dump.cpp:102-108 | Passing no suffix names the same file as passing `.dot`; a passed suffix, even an empty one, is handed to the suffix replacement unchanged; the suffix is `.dot` exactly when none or `.dot` was passed. |
| `ModuleHeader.BoolText` | tools/llvm-sdg-dump.cpp:150-154 | Defined as `std::to_string` of a bool: `1` for true, `0` for false. |
| `ModuleHeader.PtaDescription` | tools/llvm-sdg-dump.cpp:155-164 | Defined as `flow-insensitive`, `flow-sensitive` or `flow-sensitive with invalidate`, each with a line break, for fi, fs and inv, and the empty text for any other kind. |
| `ModuleHeader.FieldSensitivityText` | tools/llvm-sdg-dump.cpp:166-172 | Defined as `full` for the UNKNOWN offset, otherwise the decimal bound, followed in both cases by two line breaks. |
| `ModuleHeader.Preamble` | tools/llvm-sdg-dump.cpp:146-155 | Defined as the banner, the two quoted criteria, the three quoted switches and the `pointer analysis: ` label, in that order. |
| `ModuleHeader.ModuleComment` | tools/llvm-sdg-dump.cpp:146-172 | Defined as the preamble, the analysis description, the field-sensitivity label and the field-sensitivity text. |
| `ModuleHeader.DecimalString` | tools/llvm-sdg-dump.cpp:170-172 | The printed bound is a non-empty string of decimal digits with no leading zero unless the value is 0. |
| `ModuleHeader.DecimalRoundTrip` | tools/llvm-sdg-dump.cpp:170-172 | Reading the printed digits back gives the value that was printed. |
| `ModuleHeader.DecimalStringInjective` | tools/llvm-sdg-dump.cpp:170-172 | Distinct values print as distinct strings. |
| `ModuleHeader.BuildModuleComment` | tools/llvm-sdg-dump.cpp:146-172 | Appending the banner, the criteria, the switches, the analysis description and the field sensitivity in the tool's order gives `ModuleComment(c)`. |
| `ModuleHeader.ModuleCommentQuotesCriteria` | tools/llvm-sdg-dump.cpp:146-149 | The comment starts with the `Generated by llvm-slicer` banner, then the primary and then the secondary criterion, each copied verbatim between an opening and a closing single quote. |
| `ModuleHeader.PtaDescriptionDistinct` | tools/llvm-sdg-dump.cpp:155-164 | The analysis description is empty exactly for analysis kinds other than fi/fs/inv, and the three named kinds get three different descriptions. |
| `ModuleHeader.ModuleCommentEnding` | tools/llvm-sdg-dump.cpp:166-172 | The comment ends in `full` and two line breaks for the UNKNOWN offset, otherwise in the decimal bound and two line breaks, and that decimal text reads back to the bound. |
| `ModuleHeader.FieldSensitivityTextFirst` | tools/llvm-sdg-dump.cpp:166-172 | The closing text starts with a digit exactly when a concrete bound is printed. |
| `ModuleHeader.FieldSensitivityTextInjective` | tools/llvm-sdg-dump.cpp:166-172 | Equal closing texts come from equal field-sensitivity settings. |
| `ModuleHeader.AnalysisOfDescription` | tools/llvm-sdg-dump.cpp:155-166 | The analysis kind can be read back from the text after `pointer analysis: `, including the case where nothing is printed. |
| `ModuleHeader.AnalysisTailInjective` | tools/llvm-sdg-dump.cpp:155-172 | The text after `pointer analysis: ` determines both the analysis kind and the field sensitivity. |
| `ModuleHeader.PreambleDeterminesSwitches` | tools/llvm-sdg-dump.cpp:150-155 | For the same criteria strings, the forward-slice, remove-criteria and undefined-are-pure switches can be read back from the comment. |
| `ModuleHeader.ModuleCommentDeterminesSettings` | tools/llvm-sdg-dump.cpp:146-172 | For the same criteria strings, equal comments come from equal configurations (analysis kinds other than fi/fs/inv counted as one). |

## Left out

- The tokeniser `splitList` and `replace_suffix` (declared in `llvm-slicer-utils.h`): not part of this model; taken as arbitrary functions supplied by the caller.
- Loading and parsing the LLVM module (`parseModule`), the entry-function check and stack-trace setup in `main`: I/O and signal handling.
- The command-line option definitions (lines 67-87) and `parseSlicerOptions`: argument plumbing; the model starts from the option string and the configuration record.
- Rendering the graph (`SDG2Dot`) and annotating each instruction (`LLVMDGAssemblyAnnotationWriter`), and writing through `std::ofstream` and `Module::print`: external classes and file I/O. Only the file names and the header text they receive are modelled.
- The basic-block-only dump branch (lines 112-115): its body is a failing `assert`.
- Slicing-criteria resolution and the secondary-criteria closure: commented out in this file and defined in `llvm-slicer-crit.cpp`, which is not part of this model; `main` also uses `slicer` and `criteria_nodes` without declaring them.
- The exit codes of `main`: they depend only on the external parsing and lookup steps above.
- `OutputNames.AnnotatedFileName`: the tool counts the three dropped units and the minimum length in bytes of the path's encoding, while the model counts characters; the two agree when the last three characters of the path are ASCII, and differ otherwise (for `foo.bé` the tool keeps `foo.`, the model `foo`).
- `OutputNames.AnnotatedFileName`: requires at least three characters; on a shorter path the tool's `fl.end() - 3` is undefined behaviour, which the model does not describe.
- `ModuleHeader.DecimalString`: the bound is an unbounded `nat`; the 64-bit width of `Offset` and the value reserved for UNKNOWN are replaced by the separate `Unknown` constructor.
- The pointer-analysis kinds other than fi/fs/inv are one value, `OtherAnalysis`, because the header prints nothing for any of them.
