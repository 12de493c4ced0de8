# Rate strategy updates feature (Aave v3 risk stewards generator)

This project models the `RATE_UPDATE_V3` feature module of the payload
generator, `generator/features/rateUpdates.ts`. The module has two halves:

- **The collector** (`rateUpdatesV3.cli` and `fetchRateStrategyParamsV3`)
  asks the operator which assets to amend. For each asset, in selection
  order, it asks for four rate fields with four percent prompts. It returns
  the list of `{asset, params}` records.
- **The renderer** (`rateUpdatesV3.build`) turns that list into the text of
  one Solidity function, `rateStrategiesUpdates()`. The function:
  - allocates an `IAaveV3ConfigEngine.RateStrategyUpdate[]` with one slot
    per record;
  - fills slot `ix` from record `ix` with an indexed assignment;
  - joins the assignments with newlines.

  Each assignment names the asset through `translateAssetToAssetLibUnderlying`
  and writes all four `InterestRateInputData` keys. Each key's value goes
  through `translateJsPercentToSol`.

Modules:

- `Wrappers`: `Option` and `Outcome`.
- `RateTypes`: the record types.
- `Text`: the JavaScript text operations the renderer is made of:
  - a template literal;
  - `Array.prototype.join`;
  - `${n}` for a non-negative integer;
  - a reader that recovers a rendered integer from text.
- `Renderer`: `build`, as recursive functions, and lemmas about the text it
  produces.
- `Collector`: `cli`, as a method with a loop, and
  `fetchRateStrategyParamsV3`, as a straight-line method.

The prompts are inputs to the collector:

- The asset selection is a parameter, `Outcome<seq<Asset>>`. `Failed` stands
  for a rejected prompt.
- The percent answers are a script, read in the order the prompts are
  awaited. An answer is either `Resolved(Some(v))`, `Resolved(None)` for an
  empty optional answer, or `Rejected`.

Each method also returns the requests it issued, so the message and the
`required` flag of every prompt can be stated.

The two translators live in another module of the generator. Here they are
uninterpreted functions, passed in as a `Translators` value.

A record with an absent rate field is rendered like any other. The code
writes all four keys unconditionally and hands the absent value (JavaScript
`undefined`, here `None`) to `translateJsPercentToSol`. No key is omitted for
an absent value.

## Model

| member | source | states |
|---|---|---|
| Text.TemplateOfSix | generator/features/rateUpdates.ts:61-73 | a template literal with six substitutions is its seven literal strings and six values interleaved in order |
| Text.JoinAppend | generator/features/rateUpdates.ts:75 | `join` of two non-empty lists is the two joins with one separator between them |
| Text.JoinPartAt | generator/features/rateUpdates.ts:75 | in `parts.join(sep)`, part `i` stands at its offset; a non-last part is followed by exactly one separator, then the next part; the last part ends the text |
| Text.JoinLength | generator/features/rateUpdates.ts:75 | the joined length is the parts' total length plus `n - 1` separator lengths |
| Text.NatToString | generator/features/rateUpdates.ts:56-58 | `${n}` is a non-empty run of decimal digits with no leading zero unless `n` is 0 |
| Text.ParseNatToString | generator/features/rateUpdates.ts:56-58 | reading back the decimal text of `n` gives `n` |
| Text.NatToStringInjective | generator/features/rateUpdates.ts:61 | distinct numbers are rendered as distinct texts, so distinct indices are written differently |
| Text.ReadRenderedNumber | generator/features/rateUpdates.ts:56-61 | a number rendered between a prefix and a non-digit is read back exactly |
| Renderer.Build | generator/features/rateUpdates.ts:46-83 | `build` is a function of `pool`, `cfg` and the translators only, and its `fn` holds exactly one text |
| Renderer.BuildAllocatesOnePerRecord | generator/features/rateUpdates.ts:56-58 | the size read from the array allocation of the generated function is exactly `cfg.length`, zero included |
| Renderer.BuildEmpty | generator/features/rateUpdates.ts:50-79 | an empty list allocates a zero-length array and splices nothing between the allocation and the return |
| Renderer.ElementTextParts | generator/features/rateUpdates.ts:61-73 | an assignment is `rateStrategies[<ix>]`, then `asset: ` with the translated asset, then all four keys `optimalUsageRatio`, `baseVariableBorrowRate`, `variableRateSlope1`, `variableRateSlope2`, each with `translateJsPercentToSol` of its field (`optimalUsageRatio` from `optimalUtilizationRate`), present or not |
| Renderer.Elements | generator/features/rateUpdates.ts:59-74 | `map` gives one assignment per record |
| Renderer.ElementsAt | generator/features/rateUpdates.ts:59-61 | the `i`-th assignment is built from record `i` with index `i`: list order is kept |
| Renderer.ElementsAssignTheirIndex | generator/features/rateUpdates.ts:59-61 | the index read from the `i`-th assignment is `i`, so the indices run 0 to n-1 with no gap or repeat |
| Renderer.SpliceElementAt | generator/features/rateUpdates.ts:59-75 | the assignment for record `i` stands in the spliced text at its offset |
| Renderer.SpliceNewlineBetween | generator/features/rateUpdates.ts:59-75 | consecutive assignments are separated by exactly one newline, and the next begins right after it |
| Renderer.SpliceEndsWithLast | generator/features/rateUpdates.ts:59-75 | the last assignment ends the spliced text, with no trailing separator |
| Renderer.BuildShowsElement | generator/features/rateUpdates.ts:50-79 | in the generated function text, the assignment for record `i` stands right after the header and allocation, at its offset within the joined assignments |
| Collector.FetchRateStrategyParams | generator/features/rateUpdates.ts:9-27 | four prompts in field order, each with the given `required`; the record holds the four answers, one field each, when all resolve; the first rejection rejects the call and no later prompt is asked |
| Collector.Cli | generator/features/rateUpdates.ts:33-44 | on success there is one record per selected asset, in selection order: record `i` is asset `i` with the answers to prompts `4i` to `4i+3`. Every prompt is issued with `required` undefined. A rejected selection or percent prompt rejects the call, and the rejecting prompt is the last one asked |

## Left out

- The `console.log` progress messages of `cli` (lines 34 and 41): output only, with no effect on the result.
- The prompts `assetsSelectPrompt` and `percentPrompt` are not part of this model: their results are inputs, and their validation, parsing and async suspension are not modelled. The `pool` passed to the selection prompt is therefore unused, and the `required` flag is only recorded in the issued requests.
- Collector.Cli: an exhausted answer script is read as a rejected prompt; the real prompt would wait for the operator.
- The bodies of `translateAssetToAssetLibUnderlying` and `translateJsPercentToSol` are not part of this model: they are uninterpreted, and no percent-to-fixed-point scaling is assumed.
- The whitespace and indentation of the template literal: the fixed Solidity text is kept with its line breaks, but the indentation is dropped.
- The `FeatureModule` plumbing (`value`, `description`, the `FEATURE` enum) and the `code` wrapper of the returned artifact: the artifact is modelled as its list of function texts.
- Renderer.Build: a translator that throws is not modelled; the translators are total functions here, so `build` always returns an artifact, whereas in the code an exception from `translateAssetToAssetLibUnderlying` or `translateJsPercentToSol` escapes `build` and no artifact is returned.
- Uniqueness of the selected assets is neither required nor enforced by the code, and not by the model.
