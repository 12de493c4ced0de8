/**
 * `rateUpdatesV3.build`: renders the collected list as the text of one
 * Solidity function that fills a `RateStrategyUpdate[]` array, one indexed
 * assignment per record.
 */
module Renderer {
  import opened Wrappers
  import opened Text
  import opened RateTypes

  /**
   * The two translators `build` calls, defined outside this module and left
   * uninterpreted: `translateAssetToAssetLibUnderlying(asset, pool)` and
   * `translateJsPercentToSol(value)`.
   */
  datatype Translators = Translators(
    assetToUnderlying: (Asset, Pool) -> string,
    percentToSol: Option<Percent> -> string)

  /** The artifact `build` returns: the texts of the functions it contributes. */
  datatype CodeArtifact = CodeArtifact(fn: seq<string>)

  // The fixed text of the generated function, with its whitespace normalised.

  /** Everything before the array size: the function header and the allocation up to its `(`. */
  const FunctionHead: string :=
    "function rateStrategiesUpdates()\npublic\npure\noverride\n"
    + "returns (IAaveV3ConfigEngine.RateStrategyUpdate[] memory)\n{\n"
    + "IAaveV3ConfigEngine.RateStrategyUpdate[] memory rateStrategies = "
    + "new IAaveV3ConfigEngine.RateStrategyUpdate[]("

  /** Between the array size and the spliced assignments. */
  const AllocationEnd: string := ")" + ";\n"

  /** After the spliced assignments. */
  const FunctionTail: string := "\n\n\nreturn rateStrategies;\n}"

  /** The four keys of `InterestRateInputData`, in the order every assignment emits them. */
  const InputKeys: seq<string> := ["optimalUsageRatio", "baseVariableBorrowRate", "variableRateSlope1", "variableRateSlope2"]

  /** What precedes key `k`: the opening of the nested `InterestRateInputData` before the first, a comma before the others. */
  function KeySeparator(k: nat): string
  {
    if k == 0 then ",\nparams: IAaveV3ConfigEngine.InterestRateInputData({\n" else ",\n"
  }

  /** Key `k` as it is written before its value. */
  function KeyLabel(k: nat): string
    requires k < 4
  {
    InputKeys[k] + ": "
  }

  /** The literal string before rate slot `k`: its separator and its key. */
  function RateKeyString(k: nat): string
    requires k < 4
  {
    KeySeparator(k) + KeyLabel(k)
  }

  /** What opens an assignment, up to its index. */
  const IndexOpen: string := "rateStrategies["

  /** Between the index and the asset expression: the record's opening and the `asset` key. */
  const AssetOpen: string := "]" + " = IAaveV3ConfigEngine.RateStrategyUpdate({\n" + "asset: "

  /** After the last rate: the closing of `InterestRateInputData` and of the record. */
  const ElementClose: string := "\n})\n});"

  /**
   * The literal strings of one assignment's template; its six slots are the
   * index, the asset and the four rates.
   */
  const ElementStrings: seq<string> :=
    [IndexOpen, AssetOpen, RateKeyString(0), RateKeyString(1), RateKeyString(2), RateKeyString(3), ElementClose]

  /**
   * What fills the six slots of the assignment for record `u` at index `ix`:
   * the index, the translated asset, and `translateJsPercentToSol` of each
   * field in the order of InputKeys (`optimalUsageRatio` takes
   * `optimalUtilizationRate`), present or not.
   */
  function ElementValues(pool: Pool, tr: Translators, ix: nat, u: RateStrategyUpdate): seq<string>
  {
    [NatToString(ix), tr.assetToUnderlying(u.asset, pool),
     tr.percentToSol(u.params.optimalUtilizationRate), tr.percentToSol(u.params.baseVariableBorrowRate),
     tr.percentToSol(u.params.variableRateSlope1), tr.percentToSol(u.params.variableRateSlope2)]
  }

  /** The text the `map` callback produces for record `u` at index `ix`. */
  function ElementText(pool: Pool, tr: Translators, ix: nat, u: RateStrategyUpdate): string
  {
    Template(ElementStrings, ElementValues(pool, tr, ix, u))
  }

  /**
   * The assignment for record `u` at index `ix`, written out: the index, then
   * `asset: ` and the translated asset, then all four keys of
   * `InterestRateInputData` in order, each followed by the translation of its
   * field, whether that field is present or not.
   */
  lemma ElementTextParts(pool: Pool, tr: Translators, ix: nat, u: RateStrategyUpdate)
    ensures ElementText(pool, tr, ix, u)
         == IndexOpen + (NatToString(ix) + (AssetOpen + (tr.assetToUnderlying(u.asset, pool)
          + (RateKeyString(0) + (tr.percentToSol(u.params.optimalUtilizationRate)
          + (RateKeyString(1) + (tr.percentToSol(u.params.baseVariableBorrowRate)
          + (RateKeyString(2) + (tr.percentToSol(u.params.variableRateSlope1)
          + (RateKeyString(3) + (tr.percentToSol(u.params.variableRateSlope2)
          + ElementClose)))))))))))
  {
    TemplateOfSix(ElementStrings, ElementValues(pool, tr, ix, u));
  }

  /**
   * `cfg.map((cfg, ix) => ...)` for the records from index `from` on: one
   * assignment per record.
   */
  function Elements(pool: Pool, tr: Translators, cfg: seq<RateStrategyUpdate>, from: nat): (r: seq<string>)
    ensures |r| == |cfg|
    decreases |cfg|
  {
    if |cfg| == 0 then []
    else [ElementText(pool, tr, from, cfg[0])] + Elements(pool, tr, cfg[1..], from + 1)
  }

  /** The `i`-th assignment is built from record `i` and carries index `from + i`: the list's order is kept. */
  lemma {:induction false} ElementsAt(pool: Pool, tr: Translators, cfg: seq<RateStrategyUpdate>, from: nat, i: nat)
    requires i < |cfg|
    ensures Elements(pool, tr, cfg, from)[i] == ElementText(pool, tr, from + i, cfg[i])
    decreases i
  {
    if i > 0 {
      ElementsAt(pool, tr, cfg[1..], from + 1, i - 1);
    }
  }

  /** The assignments joined by newlines: the text spliced into the function body. */
  function Splice(pool: Pool, tr: Translators, cfg: seq<RateStrategyUpdate>): string
  {
    Join(Elements(pool, tr, cfg, 0), "\n")
  }

  /** The text of a generated function before its first assignment: the header and the allocation of `n` entries. */
  function Preamble(n: nat): string
  {
    FunctionHead + (NatToString(n) + AllocationEnd)
  }

  /**
   * `rateUpdatesV3.build({pool, cfg})`: an artifact holding the text of
   * exactly one function, the preamble, the spliced assignments and the
   * fixed end.
   */
  function Build(pool: Pool, cfg: seq<RateStrategyUpdate>, tr: Translators): (r: CodeArtifact)
    ensures |r.fn| == 1
  {
    CodeArtifact([Preamble(|cfg|) + (Splice(pool, tr, cfg) + FunctionTail)])
  }

  // ---------------------------------------------------------------------------
  // Reading the generated text back
  // ---------------------------------------------------------------------------

  /** The size written in the array allocation of a generated function. */
  function AllocatedLength(code: string): Option<nat>
  {
    ReadNumberAfter(FunctionHead, code)
  }

  /** The index an assignment writes to, `rateStrategies[<index>]`. */
  function AssignedIndex(element: string): Option<nat>
  {
    ReadNumberAfter(IndexOpen, element)
  }

  /** The array is allocated with exactly as many slots as there are records, zero included. */
  lemma BuildAllocatesOnePerRecord(pool: Pool, cfg: seq<RateStrategyUpdate>, tr: Translators)
    ensures AllocatedLength(Build(pool, cfg, tr).fn[0]) == Some(|cfg|)
  {
    var rest := AllocationEnd + (Splice(pool, tr, cfg) + FunctionTail);
    assert rest[0] == ')';
    assert Build(pool, cfg, tr).fn[0] == FunctionHead + (NatToString(|cfg|) + rest);
    ReadRenderedNumber(FunctionHead, |cfg|, rest);
  }

  /** An empty list gives a zero-length array and nothing spliced between allocation and return. */
  lemma BuildEmpty(pool: Pool, tr: Translators)
    ensures Build(pool, [], tr).fn[0] == FunctionHead + ("0" + (AllocationEnd + FunctionTail))
  {
    assert NatToString(0) == "0";
    assert Splice(pool, tr, []) == "";
  }

  /** Every assignment writes to the index of its own position: indices run 0, 1, ... with no gap or repeat. */
  lemma ElementsAssignTheirIndex(pool: Pool, tr: Translators, cfg: seq<RateStrategyUpdate>, i: nat)
    requires i < |cfg|
    ensures AssignedIndex(Elements(pool, tr, cfg, 0)[i]) == Some(i)
  {
    ElementsAt(pool, tr, cfg, 0, i);
    ElementTextParts(pool, tr, i, cfg[i]);
    var u := cfg[i];
    var rest := AssetOpen + (tr.assetToUnderlying(u.asset, pool)
          + (RateKeyString(0) + (tr.percentToSol(u.params.optimalUtilizationRate)
          + (RateKeyString(1) + (tr.percentToSol(u.params.baseVariableBorrowRate)
          + (RateKeyString(2) + (tr.percentToSol(u.params.variableRateSlope1)
          + (RateKeyString(3) + (tr.percentToSol(u.params.variableRateSlope2)
          + ElementClose)))))))));
    assert rest[0] == ']';
    ReadRenderedNumber(IndexOpen, i, rest);
  }

  /** Where the assignment for record `i` begins in the spliced text. */
  function ElementOffset(pool: Pool, tr: Translators, cfg: seq<RateStrategyUpdate>, i: nat): nat
    requires i < |cfg|
  {
    JoinOffset(Elements(pool, tr, cfg, 0), "\n", i)
  }

  /** The assignment built from record `i` with index `i` stands in the spliced text at ElementOffset. */
  lemma SpliceElementAt(pool: Pool, tr: Translators, cfg: seq<RateStrategyUpdate>, i: nat)
    requires i < |cfg|
    ensures Shows(Splice(pool, tr, cfg), ElementOffset(pool, tr, cfg, i), ElementText(pool, tr, i, cfg[i]))
  {
    JoinPartAt(Elements(pool, tr, cfg, 0), "\n", i);
    ElementsAt(pool, tr, cfg, 0, i);
  }

  /**
   * Each assignment but the last is followed by exactly one newline, and the
   * next assignment begins right after it: nothing else stands between two
   * assignments.
   */
  lemma SpliceNewlineBetween(pool: Pool, tr: Translators, cfg: seq<RateStrategyUpdate>, i: nat)
    requires i + 1 < |cfg|
    ensures Shows(Splice(pool, tr, cfg), ElementOffset(pool, tr, cfg, i) + |ElementText(pool, tr, i, cfg[i])|, "\n")
    ensures ElementOffset(pool, tr, cfg, i + 1) == ElementOffset(pool, tr, cfg, i) + |ElementText(pool, tr, i, cfg[i])| + 1
  {
    JoinPartAt(Elements(pool, tr, cfg, 0), "\n", i);
    ElementsAt(pool, tr, cfg, 0, i);
  }

  /** The last assignment ends the spliced text: no separator follows it. */
  lemma SpliceEndsWithLast(pool: Pool, tr: Translators, cfg: seq<RateStrategyUpdate>)
    requires |cfg| > 0
    ensures ElementOffset(pool, tr, cfg, |cfg| - 1) + |ElementText(pool, tr, |cfg| - 1, cfg[|cfg| - 1])|
         == |Splice(pool, tr, cfg)|
  {
    JoinPartAt(Elements(pool, tr, cfg, 0), "\n", |cfg| - 1);
    ElementsAt(pool, tr, cfg, 0, |cfg| - 1);
  }

  /** In the generated function, the assignment for record `i` stands after the preamble, at its offset in the spliced text. */
  lemma BuildShowsElement(pool: Pool, cfg: seq<RateStrategyUpdate>, tr: Translators, i: nat)
    requires i < |cfg|
    ensures Shows(Build(pool, cfg, tr).fn[0], |Preamble(|cfg|)| + ElementOffset(pool, tr, cfg, i), ElementText(pool, tr, i, cfg[i]))
  {
    ShowsMiddle(Preamble(|cfg|), Splice(pool, tr, cfg), FunctionTail);
    SpliceElementAt(pool, tr, cfg, i);
    ShowsWithin(Build(pool, cfg, tr).fn[0], |Preamble(|cfg|)|, Splice(pool, tr, cfg),
      ElementOffset(pool, tr, cfg, i), ElementText(pool, tr, i, cfg[i]));
  }
}
