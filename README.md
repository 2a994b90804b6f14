# chipa-ta in Dafny

A model of the core of chipa-ta, a Rust library of streaming technical-analysis
indicators together with a small strategy engine built on them. Every indicator
is a state machine. Its constructor checks the parameters, `next` takes one
value or one candle and produces an output, and `reset` returns it to its
freshly constructed state. The strategy layer works like this:

- conditions compare indicator outputs with thresholds or detect crossings;
- strategy trees branch on conditions and combine the actions of sequences;
- a strategy waits out a warm-up period before it answers.

Amount modifiers, such as a bounded Martingale, scale the stake after each
trade result.

How the model is built:

- **Numbers.** An `f64` is the exact real it denotes. NaN appears only where
  the code looks at it: the median's filter, the `i64` cast of the mode, and
  the missing volume of a float candle.
- **Indicators.** Each indicator file holds three things:
  - a state datatype;
  - specification functions (`Create`, `Step`, `StepCandle`, `Restart`,
    `Period`, `Encode`/`Decode`) and lemmas about runs of inputs (`Feed`);
  - a class with the library's own fields, whose methods (`New`, `Next`,
    `NextCandle`, `Reset`) change the fields in place and are proved against
    those functions.

  Composite indicators hold their parts as objects: Bollinger bands over a
  standard deviation, MACD over three EMAs, ATR over a true range and an EMA,
  and so on.
- **Strategies.** The `Indicator` sum type, conditions and strategy trees work
  on values. Evaluating returns the updated tree beside the answer. The loops
  of the library appear as methods proved equal to those functions:
  - the short-circuit walks over `And`/`Or` children and over sequence
    children;
  - the counting of actions;
  - the batch feeding of an indicator.
- **Outside routines** become fields of one environment value,
  `Externals.Env`. These are the routines whose source is not part of this
  model: `f64::sqrt`, `OutputType::cmp_output` for anything but two `Single`
  values, the RSI, the true range's reported period, and the iteration order
  of the standard hash map.

Where the documentation and the code disagree, the model follows the code:

- A `Majority` sequence with tied counts answers the last maximal action in
  hash-map order. It does not answer `Hold`, which is what the doc comment at
  src/strategy/node.rs:17 says.
- `most_frequent` averages the tied values themselves. The closure
  destructures each map entry as `(count, _)` but binds the key.
- A Martingale loss at the maximum number of doublings returns factor 1 and
  leaves the counter where it is. The comment at
  src/strategy/binary/martingale.rs:64 speaks of a reset.
- The SMMA's dummy zero is evicted by the `period`-th input. It never enters
  the average.
- The Keltner channel accepts every period from 1.
- The sixth %D value of the Stochastic test at src/indicators/stoch.rs:196-198
  is exactly 20, the mean of 1/3 and 1/15 times 100. The test expects 19.999
  within 0.0001, which 20 is not.
- SMA is modelled as the mean of the inputs seen so far until its window is
  full. With that model the first %D equals the first %K, where the comment at
  src/indicators/stoch.rs:156 expects NaN.

The defects listed under "## Findings" are an exception to following the
code. Each is modelled twice: once as written, with a witness, and once
corrected. The rest of the model uses the corrected half:

- the `Indicator` enum, the wrapper and the stochastic oscillator object reset
  %D on `reset`;
- the enum's reader, and with it the wrapper's, the conditions' and the
  strategy's readers, reads the SMMA, the stochastic oscillator and the mean
  absolute error through `new`.

"## Left out" names each member that runs a corrected half.

## Model

| member | source | states |
|---|---|---|
| `HelperTypes.CycleNew` | src/helper_types.rs:53-58 | succeeds exactly for a positive period, starting at index 0; period 0 is `InvalidParameter` |
| `HelperTypes.CycleAdvance` | src/helper_types.rs:65-71 | the index goes up by one below `period - 1` and wraps to 0 otherwise, so it stays below a positive period |
| `HelperTypes.CycleCountsModuloPeriod` | src/helper_types.rs:60-71 | from a fresh cycle, `n` steps leave the index at `n mod period` |
| `HelperTypes.CycleReset` | src/helper_types.rs:40-44 | the index returns to 0 and the period stays |
| `HelperTypes.QueueNew` | src/helper_types.rs:79-87 | succeeds exactly for a positive capacity, empty; capacity 0 is `InvalidParameter` |
| `HelperTypes.QueueNextWith` | src/helper_types.rs:89-96 | appends at the back; returns the old front exactly when the queue was already at capacity, so the evicted value followed by the new contents is the old contents plus the value; a queue within capacity stays within it |
| `HelperTypes.QueueSlides` | src/helper_types.rs:89-96 | on a queue within capacity, `next_with` keeps the last `period` values pushed |
| `HelperTypes.QueueIsFifo` | src/helper_types.rs:89-96 | over any run of pushes, the evicted values then the contents are the old contents then the pushed values, and the length ends at `min(total, capacity)` |
| `HelperTypes.QueuePushBack` | src/helper_types.rs:107-111 | a raw push through the dereferenced deque appends without evicting |
| `HelperTypes.QueuePopFront` | src/helper_types.rs:107-111 | a raw pop removes and returns the front, and returns nothing from an empty queue |
| `HelperTypes.QueuePushBackAllLength` | src/helper_types.rs:107-111 | raw pushes add one element each, whatever the capacity |
| `HelperTypes.RawPushesExceedCapacity` | src/helper_types.rs:117-127 | twelve raw pushes into a queue of capacity 10 and one pop leave 11 elements |
| `HelperTypes.QueueReset` | src/helper_types.rs:46-50 | the contents are emptied and the capacity stays |
| `HelperTypes.Cycle.Init` | src/helper_types.rs:16-20 | the fields hold the given period and index |
| `HelperTypes.Cycle.NextSilence` | src/helper_types.rs:65-71 | the fields move as `CycleAdvance` says |
| `HelperTypes.Cycle.NextIdx` | src/helper_types.rs:60-63 | advances as `CycleAdvance` says and returns the new index |
| `HelperTypes.Cycle.Reset` | src/helper_types.rs:40-44 | the fields move as `CycleReset` says |
| `HelperTypes.Queue.Init` | src/helper_types.rs:22-26 | the fields hold the given contents and capacity |
| `HelperTypes.Queue.NextWith` | src/helper_types.rs:89-96 | the contents and the returned value are those of `QueueNextWith` |
| `HelperTypes.Queue.PushBack` | src/helper_types.rs:107-111 | the contents are those of `QueuePushBack` |
| `HelperTypes.Queue.PopFront` | src/helper_types.rs:107-111 | the contents and the returned value are those of `QueuePopFront` |
| `HelperTypes.Queue.Reset` | src/helper_types.rs:46-50 | the contents are those of `QueueReset` |
| `HelperTypes.Cycle.New` | src/helper_types.rs:53-58 | as `CycleNew`, on a fresh object |
| `HelperTypes.Queue.New` | src/helper_types.rs:79-87 | as `QueueNew`, on a fresh object |
| `Candles.ToBar` | src/traits.rs:28-36 | the bar holds the candle's open, high, low, close, price and volume |
| `Candles.DefaultProjections` | src/traits.rs:5-26 | a candle that provides only its price answers that price for open, close, high and low, has no volume, and converts to the bar of that price |
| `Candles.ToBarOfBar` | src/traits.rs:28-36 | converting a bar's own projections back gives the same bar |
| `Candles.ToBarDeterminesProjections` | src/traits.rs:28-36 | two candles with the same bar agree on every projection |
| `MarketData.ToBar` | src/strategy/market_data.rs:22-63 | the bar an indicator sees is the bar of the market data's candle projections |
| `MarketData.FloatProjections` | src/strategy/market_data.rs:13-63 | a float is open, high, low, close and price at once, its typical price is itself and it has no volume |
| `MarketData.BarDelegates` | src/strategy/market_data.rs:13-63 | a wrapped bar answers every projection, and the typical price, from the bar |
| `Externals.CompareOutputs` | src/strategy/condition.rs:66-80 | two single values compare with the plain relation, a NaN single satisfies none of the five relations, and every other pair goes to the external comparison |
| `Output.ComplementaryRelations` | src/strategy/condition.rs:86-111 | on reals `<=` is the negation of `>`, `>=` the negation of `<`, and `==` is `<=` and `>=` together |
| `Numeric.FoldMaxIsMax` | src/indicators/stoch.rs:102 | `fold(acc, f64::max)` is at least the seed and every element, and equals one of them |
| `Numeric.FoldMinIsMin` | src/indicators/stoch.rs:103 | `fold(acc, f64::min)` is at most the seed and every element, and equals one of them |
| `Numeric.HighestInWindow` | src/indicators/williams_r.rs:125-128 | seeded with `f64::MIN`, the maximum fold of a non-empty window of finite values is the window's largest element |
| `Numeric.LowestInWindow` | src/indicators/williams_r.rs:129-132 | seeded with `f64::MAX`, the minimum fold of a non-empty window of finite values is the window's smallest element |
| `Numeric.Round` | src/math/base.rs:70 | `f64::round` lands within one half of the value, on the value's side of zero, and a value exactly half-way goes away from zero, so the result is the unique such integer |
| `Numeric.RoundHalves` | src/math/base.rs:70 | 2.5 rounds to 3, −2.5 to −3, ±0.5 to ±1, 2.4 to 2 and −2.6 to −3 |
| `Numeric.MeanWithin` | src/math/base.rs:7-8 | the mean of a window within bounds lies within them |
| `Numeric.SqDevAboutMean` | src/indicators/sd.rs:85-102 | about the mean the squared deviations (the `m2` the window keeps) add up to the sum of squares less n times the squared mean |
| `Counting.Counts` | src/math/base.rs:43-46 | the counting map holds exactly the elements that occur, each with its number of occurrences |
| `Counting.Distinct` | src/strategy/node.rs:109-112 | the keys counted, each once, exactly the elements that occur |
| `Counting.CountsSnoc` | src/math/base.rs:44 | one more element adds one to its entry, or inserts it with count one |
| `Counting.DistinctSnoc` | src/strategy/node.rs:110-112 | one more element is a new key exactly when it has not occurred before |
| `Counting.Tally` | src/strategy/node.rs:109-112 | the counting loop builds the counting map and the keys in arrival order |
| `Counting.CountAtMostLength` | src/math/base.rs:43-46 | no count exceeds the number of elements |
| `Condition.Feed` | src/strategy/condition.rs:67 | the indicator takes the market data as a candle, once; its period and validity do not change and the output is the candle path's `Ok` output |
| `Condition.Crossed` | src/strategy/condition.rs:87-93 | no previous output means no crossing; otherwise the previous output must satisfy the "before" relation, and only then is the current output compared; a failed comparison is the answer |
| `Condition.Evaluate` | src/strategy/condition.rs:64-131 | the updated condition is valid again; what it answers is stated by the lemmas and by `Run` |
| `Condition.Negate` | src/strategy/condition.rs:129 | `Not` flips a successful answer and passes a failure through |
| `Condition.EvaluateEach` | src/strategy/condition.rs:113-128 | the children are returned in order, as many as before, and all valid |
| `Condition.MaxOpt` | src/strategy/condition.rs:140 | the larger of two optional periods, a missing one ignored; it is one of the two |
| `Condition.MaxPeriodAll` | src/strategy/condition.rs:139-141 | `None` exactly when no child has a period; otherwise the largest child period, attained by some child |
| `Condition.EvaluateKeepsPeriod` | src/strategy/condition.rs:64-149 | evaluating a condition leaves its `max_period` unchanged |
| `Condition.LeafKeepsPeriod` | src/strategy/condition.rs:66-111 | a comparison or crossing leaf keeps its indicator's period when evaluated |
| `Condition.EachKeepsPeriod` | src/strategy/condition.rs:113-141 | evaluating the children of `And`/`Or` leaves their largest period unchanged |
| `Condition.LeafPeriod` | src/strategy/condition.rs:134-148 | `And` of a `GreaterThan` and a `Not(LessThan)` on one indicator needs exactly that indicator's period |
| `Condition.Run` | src/strategy/condition.rs:64-131 | the loop with early returns computes the updated condition and the answer `Evaluate` defines |
| `Condition.LoopContinues` | src/strategy/condition.rs:114-118 | a child answering the unit value joins the children done and the loop state is kept |
| `Condition.LoopStops` | src/strategy/condition.rs:115-116 | a child answering anything else ends the loop: that answer, with the later children untouched |
| `Condition.RunAll` | src/strategy/condition.rs:113-128 | the loop over the children with its early return computes exactly `EvaluateEach` |
| `Condition.EmptyJunctions` | src/strategy/condition.rs:113-128 | an empty `And` answers true and an empty `Or` false |
| `Condition.StopsAt` | src/strategy/condition.rs:113-128 | the short circuit: the children before the stopping child answered the unit value, the stopping child's answer is the result, and the children after it are unchanged; with no stopping child the result is the unit value |
| `Condition.EachIsWalk` | src/strategy/condition.rs:113-128 | evaluating the children in turn is the short-circuit walk over the answers each would give |
| `Condition.WalkStopsAt` | src/strategy/condition.rs:113-128 | the walk stops at the first answer that is not the unit value, keeping every child after it |
| `Condition.DeMorgan` | src/strategy/condition.rs:113-129 | `Or` over the negated children answers the negation of `And` over the children, and updates the same indicators the same way |
| `Condition.FirstCrossingIsFalse` | src/strategy/condition.rs:86-111 | the first evaluation of a crossing answers false and remembers the current output |
| `Condition.CrossOverOnSingles` | src/strategy/condition.rs:86-95 | on numbers, `CrossOver` is true exactly when the previous output was at most the threshold and the current one is above it |
| `Condition.CrossUnderOnSingles` | src/strategy/condition.rs:102-111 | on numbers, `CrossUnder` is true exactly when the previous output was at least the threshold and the current one is below it |
| `Condition.FailedCrossingKeepsPrevious` | src/strategy/condition.rs:86-95 | a failed comparison returns before the remembered output is replaced |
| `Condition.ComplementaryLeaves` | src/strategy/condition.rs:66-80 | on a number, `GreaterThan` answers the negation of `LessThanOrEqual` at the same threshold, and both update the indicator the same way |
| `Condition.NaNComparesFalse` | src/strategy/condition.rs:66-80 | a NaN output satisfies neither `GreaterThan` nor `LessThanOrEqual` |
| `Condition.Decode` | src/strategy/condition.rs:11-60 | reading a condition back fails only with the indicator reader's `InvalidParameter` |
| `Condition.DecodeAll` | src/strategy/condition.rs:54-57 | the children read back one for one, failing only with `InvalidParameter` |
| `Condition.Fresh` | src/strategy/condition.rs:40-53 | the rebuilt condition holds valid indicators |
| `Condition.FreshAll` | src/strategy/condition.rs:54-57 | the rebuilt children are as many and valid |
| `Condition.DecodeEncode` | src/strategy/condition.rs:11-60 | writing and reading a condition gives it back with every indicator reset and every crossing without its previous output, which `#[serde(skip)]` drops |
| `Condition.DecodeEncodeAll` | src/strategy/condition.rs:54-57 | the same for the children of a junction |
| `Condition.FreshForgets` | src/strategy/condition.rs:43-52 | no crossing of a read-back condition remembers an output |
| `Condition.FreshAllForgets` | src/strategy/condition.rs:54-57 | the same for every child |
| `Condition.EncodeForgetsState` | src/strategy/condition.rs:11-60 | the written form does not depend on running state: the fresh condition writes what the condition wrote |
| `Condition.EncodeAllForgetsState` | src/strategy/condition.rs:54-57 | the same for the children |
| `Node.Evaluate` | src/strategy/node.rs:57-142 | the updated tree is valid again; what it answers is stated by the lemmas and by `Run` |
| `Node.Collect` | src/strategy/node.rs:80-90 | the children come back in order, as many as before; the collected actions are none of them Hold, no more than the children, and at most one under First and Any |
| `Node.Evaluations` | src/strategy/node.rs:82-83 | one answer per child, each child updated to a valid tree |
| `Node.EvaluationsAt` | src/strategy/node.rs:82-83 | answer `i` is child `i` evaluated on the data |
| `Node.AllEvaluations` | src/strategy/node.rs:82-83 | every answer is its child evaluated on the data |
| `Node.Combine` | src/strategy/node.rs:81-90 | each child is either its updated form or left as it was; the collected actions are not Hold, at most one per child and at most one when the walk stops early |
| `Node.Join` | src/strategy/node.rs:83-85 | a failure of the rest passes through; otherwise the actions so far come in front of the rest |
| `Node.HashOrder` | src/strategy/node.rs:113-115 | the map's iteration order is a permutation of its keys |
| `Node.LastMax` | src/strategy/node.rs:113-117 | `max_by_key` gives nothing only on an empty map, and otherwise an entry of the map whose count no other entry exceeds |
| `Node.FirstReaching` | src/strategy/node.rs:126-136 | the entry found has a share, in whole percent rounded down, of at least the threshold; nothing is found exactly when no entry reaches it |
| `Node.FirstReachingIsFirst` | src/strategy/node.rs:126-136 | the entry found is the first in iteration order that reaches the threshold |
| `Node.AllAgrees` | src/strategy/node.rs:96-106 | All answers an action exactly when something was collected and every collected action is that one |
| `Node.FirstIsFirst` | src/strategy/node.rs:93-95 | First and Any answer the same: the first collected action, Hold if none |
| `Node.LastMaxBeatsAll` | src/strategy/node.rs:107-117 | over the counts of the collected actions, `max_by_key` picks a collected action that no action outnumbers |
| `Node.MajorityIsMostFrequent` | src/strategy/node.rs:107-117 | Majority answers Hold exactly when nothing was collected, and otherwise a collected action no other collected action outnumbers |
| `Node.MajorityTieIsNotHold` | src/strategy/node.rs:107-117 | a tie between one Buy and one Sell answers one of them, not Hold |
| `Node.FirstReachingOverActions` | src/strategy/node.rs:119-137 | over the counts of the collected actions, the entry found is a collected action reaching the threshold, and nothing is found exactly when no collected action reaches it |
| `Node.PercentageReaches` | src/strategy/node.rs:119-137 | Percentage(p) answers an action only if its share in whole percent reaches p, and Hold exactly when no collected action's share does |
| `Node.PercentageAboveHundredHolds` | src/strategy/node.rs:119-137 | a threshold above 100 percent always answers Hold |
| `Node.MaxByKey` | src/strategy/node.rs:113-117 | the iterator's `max_by_key`, where a later equal count replaces the best so far, computes `LastMax` |
| `Node.FindReaching` | src/strategy/node.rs:126-136 | the `filter_map(..).next()` loop computes `FirstReaching` |
| `Node.RunAggregate` | src/strategy/node.rs:92-138 | the counting loops and walks over the map compute the aggregation `Aggregate` defines |
| `Node.CombineStarts` | src/strategy/node.rs:81-82 | before the loop nothing is done and nothing collected |
| `Node.CombineFinishes` | src/strategy/node.rs:82-90 | a loop that visits every child ends with what it did and collected |
| `Node.CombineContinues` | src/strategy/node.rs:83-89 | a child that neither fails nor stops the walk joins the children done, and its action joins the collected ones unless it is Hold |
| `Node.CombineEnds` | src/strategy/node.rs:83-88 | a child that fails ends the walk with that failure; under First and Any a child answering an action ends it with that action collected; later children stay as they were |
| `Node.RunChildren` | src/strategy/node.rs:80-90 | the loop with `?` and `break` computes the children and actions `Collect` defines |
| `Node.RunChild` | src/strategy/node.rs:83 | the loop's call on child `i` gives that child's answer |
| `Node.Run` | src/strategy/node.rs:57-142 | evaluation as the source runs it computes the tree and the answer `Evaluate` defines |
| `Node.LeavesAnswer` | src/strategy/node.rs:59-63 | a preprocessing step answers Hold and stays as it is; an action node answers its action and stays as it is |
| `Node.IfRoutes` | src/strategy/node.rs:64-77 | a failed condition is the answer; true evaluates only the then-branch, false only the else-branch, or answers Hold without one; the condition is updated in every case |
| `Node.CombineStopsAt` | src/strategy/node.rs:82-90 | when the walk stops early, the children before the stopping child answered Hold, the stopping child's action is the one collected, and the children after it stay as they were |
| `Node.FirstOfAnswers` | src/strategy/node.rs:82-90 | the same, from the first child on |
| `Node.FirstStopsAt` | src/strategy/node.rs:82-95 | under First and Any, the children before the child that answers an action answered Hold, that action is the one collected, and the later children are not evaluated |
| `Node.RsiStrategyExample` | src/strategy/node.rs:215-229 | if RSI(14) answers 50 on its first input, the strategy "RSI above 40 then Sell else Hold" answers Sell |
| `Node.MaxPeriodAll` | src/strategy/node.rs:168-170 | `None` exactly when no child has a period; otherwise the largest child period, attained by some child |
| `Node.IfPeriod` | src/strategy/node.rs:149-167 | an `If` needs at least what its condition and each branch need |
| `Node.ComposedPeriodExample` | src/strategy/node.rs:246-274 | a sequence of two RSI conditions of periods 10 and 20 needs 20 |
| `Node.ValidateAll` | src/strategy/node.rs:199-201 | the children pass exactly when each of them passes |
| `Node.ValidateAllFirst` | src/strategy/node.rs:199-201 | the violation reported is that of the first child that has one |
| `Node.ValidateIsComplete` | src/strategy/node.rs:174-205 | `validate` accepts a tree exactly when every path ends in an action or a preprocessing step: no `If` without an else-branch, no empty sequence |
| `Node.ValidateExamples` | src/strategy/node.rs:276-328 | an action, an `If` with both branches and a sequence of two actions pass; a missing else-branch and an empty sequence fail with their errors |
| `Node.Decode` | src/strategy/node.rs:29-53 | reading a tree back fails only when a condition does, with `InvalidParameter` |
| `Node.DecodeAll` | src/strategy/node.rs:48-52 | the children read back one for one, failing only with `InvalidParameter` |
| `Node.Fresh` | src/strategy/node.rs:29-53 | the rebuilt tree is valid |
| `Node.FreshAll` | src/strategy/node.rs:48-52 | the rebuilt children are as many and valid |
| `Node.DecodeEncode` | src/strategy/node.rs:29-53 | writing and reading a tree gives back its shape with every condition fresh: indicators reset, crossings without previous outputs |
| `Node.DecodeEncodeAll` | src/strategy/node.rs:48-52 | the same for the children of a sequence |
| `Wrapper.Previous` | src/strategy/wrapper.rs:73-78 | the cached output when there is one, `NotInitialized` otherwise |
| `Wrapper.IndicatorState.New` | src/strategy/wrapper.rs:56-61 | wraps the indicator with nothing cached |
| `Wrapper.IndicatorState.Default` | src/strategy/wrapper.rs:9-13 | the default indicator, nothing cached |
| `Wrapper.IndicatorState.Encode` | src/strategy/wrapper.rs:15-22 | serialisation writes the indicator's form alone, and for a valid indicator that form reads back as the indicator reset |
| `Wrapper.IndicatorState.Decoded` | src/strategy/wrapper.rs:29-33 | the wrapper built around the indicator read back, nothing cached |
| `Wrapper.IndicatorState.Decode` | src/strategy/wrapper.rs:24-35 | deserialising fails exactly when the indicator's reader fails, with its error; otherwise it holds the indicator read back and nothing cached |
| `Wrapper.IndicatorState.Prev` | src/strategy/wrapper.rs:73-78 | `prev` fails with `NotInitialized` until an update has succeeded, then answers the cached output |
| `Wrapper.IndicatorState.Period` | src/strategy/wrapper.rs:43-47 | the wrapped indicator's period |
| `Wrapper.IndicatorState.Update` | src/strategy/wrapper.rs:63-71 | the indicator steps once on the value; a successful output is cached, a failure is returned and leaves the cache as it was |
| `Wrapper.IndicatorState.UpdateCandle` | src/strategy/wrapper.rs:63-71 | the indicator steps once on the candle, which it always accepts, and the output is cached |
| `Wrapper.IndicatorState.Reset` | src/strategy/wrapper.rs:106-111 | the indicator resets and the cache empties |
| `Wrapper.DecodeEncode` | src/strategy/wrapper.rs:15-35 | serialising and reading back succeeds, gives the indicator reset and loses the cache |
| `Wrapper.RoundTripRestartsEma` | src/strategy/wrapper.rs:15-35 | an EMA(3) wrapper that has seen 2 answers 3 to the input 4, and its read-back copy answers 4, as a fresh average does |
| `Wrapper.PrevAfterUpdate` | src/strategy/wrapper.rs:63-78 | after a successful update, `prev` answers exactly that update's output |
| `Wrapper.PrevAfterRefusedUpdate` | src/strategy/wrapper.rs:63-78 | after an update the indicator refuses, a fresh wrapper still has nothing cached |
| `Strat.NextState` | src/strategy/strat.rs:52-60 | below the period the index goes up by one; at the period the state becomes Ready, and Ready stays Ready |
| `Strat.Call` | src/strategy/strat.rs:41-50 | the state steps first; still warming up, the tree is only updated and the answer is no decision (or the update's error); ready, the answer is the tree's action |
| `Strat.Calls` | src/strategy/strat.rs:41-50 | a run of calls gives one answer per input |
| `Strat.Strategy.New` | src/strategy/strat.rs:37-39 | the tree with warm-up at its start |
| `Strat.Strategy.Default` | src/strategy/strat.rs:27-34 | the default tree with warm-up at its start |
| `Strat.Strategy.Period` | src/strategy/strat.rs:70-74 | the tree's period |
| `Strat.Strategy.Encode` | src/strategy/strat.rs:77-84 | serialisation writes the tree's form alone, and for a valid tree that form reads back as the tree fresh |
| `Strat.Strategy.Decode` | src/strategy/strat.rs:86-93 | deserialising fails exactly when the tree's reader fails; otherwise it builds the strategy through `new`, warm-up at its start |
| `Strat.Strategy.Next` | src/strategy/strat.rs:52-60 | the state moves as `NextState` says and the tree stays |
| `Strat.Strategy.Evaluate` | src/strategy/strat.rs:41-50 | the tree, the state and the answer move as `Call` says |
| `Strat.Strategy.Reset` | src/strategy/strat.rs:63-68 | warm-up starts over and the tree resets |
| `Strat.DecodeEncode` | src/strategy/strat.rs:77-93 | a strategy read back from its serialised form has its tree fresh, every indicator reset and every crossing without its previous output, and starts its warm-up over |
| `Strat.ReadyDecides` | src/strategy/strat.rs:41-60 | once ready a strategy stays ready and every successful answer is a decision |
| `Strat.WarmUpFrom` | src/strategy/strat.rs:41-60 | from `Progress(i)`, call `k` answers no decision exactly when `i + k` is below the period, and the state counts the inputs until it becomes Ready |
| `Strat.WarmUp` | src/strategy/strat.rs:41-60 | a fresh strategy whose tree needs `p` inputs answers no decision on its first `p` calls and a decision on every later successful call |
| `Strat.NoWarmUp` | src/strategy/strat.rs:41-60 | with period 0 the first call already evaluates the tree and answers its action |
| `IndicatorEnum.ObvOutput` | src/indicators/indicator.rs:518 | an on-balance volume total is a single value; a missing total is the NaN single |
| `IndicatorEnum.NextValue` | src/indicators/indicator.rs:414-460 | stepping on a value keeps the variant and a valid state; it fails exactly for the stochastic oscillator and the on-balance volume, with `Unexpected` and the state left as it was |
| `IndicatorEnum.NextCandle` | src/indicators/indicator.rs:487-525 | stepping on a candle keeps the variant and a valid state and never fails |
| `IndicatorEnum.Restart` | src/indicators/indicator.rs:77-83 | `reset` keeps the variant and a valid state; `IndicatorEnum.DecodeEncode` shows that the result is the indicator built afresh from its parameters (for the stochastic oscillator, through the corrected reset) |
| `IndicatorEnum.Period` | src/indicators/indicator.rs:77-83 | `period` is forwarded; the pass-through needs no history |
| `IndicatorEnum.NextValueKeepsPeriod` | src/indicators/indicator.rs:414-460 | a step on a value leaves the period unchanged |
| `IndicatorEnum.NextCandleKeepsPeriod` | src/indicators/indicator.rs:487-525 | a step on a candle leaves the period unchanged |
| `IndicatorEnum.NextValueShape` | src/indicators/indicator.rs:414-460 | an answer to a value has as many components as the variant's output (three for Bollinger bands, the Keltner channel, MACD and the Alligator, two for SuperTrend) |
| `IndicatorEnum.NextCandleShape` | src/indicators/indicator.rs:487-525 | an answer to a candle has as many components as the variant's output (two for the stochastic oscillator) |
| `IndicatorEnum.RestartKeepsPeriod` | src/indicators/indicator.rs:77-83 | resetting leaves the period unchanged |
| `IndicatorEnum.NoneIsPassThrough` | src/indicators/indicator.rs:362-366 | the pass-through answers the value itself, a candle's close, has period 0 and resets to itself (lines 674-692) |
| `IndicatorEnum.Default` | src/indicators/indicator.rs:409-413 | the default indicator is the pass-through |
| `IndicatorEnum.Decode` | src/indicators/indicator.rs:77-83 | the tag selects the variant's reader; a failure is `InvalidParameter`; the pass-through, the true range and the on-balance volume read back fresh |
| `IndicatorEnum.DecodeAsWritten` | src/indicators/indicator.rs:77-83 | with the SMMA's, the oscillator's and the mean absolute error's readers as written; every other tag reads back as `Decode` reads it |
| `IndicatorEnum.DecodeEncode` | src/indicators/mod.rs:966-1075 | writing then reading an indicator gives it back reset: parameters survive, running state does not |
| `IndicatorEnum.EncodeForgetsState` | src/indicators/mod.rs:966-1019 | the written form depends on the parameters alone: the reset indicator writes what the indicator wrote |
| `IndicatorEnum.EncodeDecode` | src/indicators/mod.rs:1022-1075 | a form that reads back is written again unchanged |
| `IndicatorEnum.DecodeAsWrittenEncode` | src/indicators/smma.rs:41-57 | with the readers as written, every valid indicator but a smoothed average reads back reset |
| `IndicatorEnum.DecodeAsWrittenSmma` | src/indicators/smma.rs:41-57 | an SMMA(2) written and read back as written is not the one `new` builds |
| `IndicatorEnum.BbOutputOrder` | src/indicators/indicator.rs:436-438 | Bollinger bands answer `[average, upper, lower]` |
| `IndicatorEnum.StochOutputOrder` | src/indicators/indicator.rs:513-515 | the stochastic oscillator answers a candle with `[%K, %D]` |
| `IndicatorEnum.AlligatorOutputOrder` | src/indicators/indicator.rs:420-422 | the Alligator answers `[jaw, teeth, lips]` |
| `IndicatorEnum.SinglesForward` | src/indicators/indicator.rs:414-460 | every single-valued variant other than OBV answers a value successfully with a single |
| `IndicatorEnum.ObvNaN` | src/indicators/obv.rs:61-77 | an on-balance volume fed a candle without volume first answers NaN |
| `IndicatorEnum.NewNone` | src/indicators/indicator.rs:712-714 | `none()` is the default pass-through |
| `IndicatorEnum.NewEma` | src/indicators/indicator.rs:732-734 | succeeds exactly for a positive period, otherwise `InvalidParameter`; the result is a valid fresh EMA |
| `IndicatorEnum.NewSma` | src/indicators/indicator.rs:752-754 | succeeds exactly for a positive period, otherwise `InvalidParameter` |
| `IndicatorEnum.NewRsi` | src/indicators/indicator.rs:772-774 | succeeds exactly for a positive period, otherwise `InvalidParameter` |
| `IndicatorEnum.NewMacd` | src/indicators/indicator.rs:794-800 | succeeds exactly when all three periods are positive, otherwise `InvalidParameter` |
| `IndicatorEnum.NewTr` | src/indicators/indicator.rs:814-816 | `tr()` always gives a fresh true range |
| `IndicatorEnum.NewAtr` | src/indicators/indicator.rs:834-836 | succeeds exactly for a positive period, otherwise `InvalidParameter` |
| `IndicatorEnum.NewSuperTrend` | src/indicators/indicator.rs:855-857 | succeeds exactly for a positive period, otherwise `InvalidParameter` |
| `IndicatorEnum.NewBb` | src/indicators/indicator.rs:876-878 | succeeds exactly for a positive period, otherwise `InvalidParameter` |
| `IndicatorEnum.NewStoch` | src/indicators/indicator.rs:897-902 | succeeds exactly when the period and the smoothing are positive, otherwise `InvalidParameter` |
| `IndicatorEnum.NewMae` | src/indicators/indicator.rs:920-922 | succeeds exactly for a positive period, otherwise `InvalidParameter` |
| `IndicatorEnum.NewSd` | src/indicators/indicator.rs:940-942 | succeeds exactly for a positive period, otherwise `InvalidParameter` |
| `IndicatorEnum.NewKc` | src/indicators/indicator.rs:962-964 | succeeds exactly for a positive period, otherwise `InvalidParameter` |
| `IndicatorEnum.NewObv` | src/indicators/indicator.rs:980-982 | `obv()` always gives a fresh on-balance volume |
| `IndicatorEnum.NewAo` | src/indicators/indicator.rs:1000-1002 | succeeds exactly when both periods are positive, otherwise `InvalidParameter` |
| `IndicatorEnum.NewWilliamsR` | src/indicators/indicator.rs:1018-1020 | succeeds exactly for a positive period, otherwise `InvalidParameter` |
| `IndicatorEnum.NewSmma` | src/indicators/indicator.rs:1036-1038 | succeeds exactly for a period of at least 2, otherwise `InvalidParameter` |
| `IndicatorEnum.RsiFactoryPeriod` | src/indicators/indicator.rs:772-774 | RSI(14) built by the factory has period 14 |
| `IndicatorEnum.FeedValues` | src/traits.rs:51-56 | the batch keeps the variant; when it succeeds it has one output per value |
| `IndicatorEnum.FeedValuesOutcome` | src/traits.rs:51-56 | a non-empty batch of values fails exactly for the candle-only variants, with `Unexpected` and the state untouched |
| `IndicatorEnum.FeedStops` | src/traits.rs:51-56 | the first refused value ends the batch with its error |
| `IndicatorEnum.FeedStep` | src/traits.rs:51-56 | an accepted value contributes its output and the batch continues from the new state |
| `IndicatorEnum.NextBatched` | src/traits.rs:51-56 | the loop over the values gives exactly the batch's final state and outcome |
| `Ema.Create` | src/indicators/ema.rs:25-35 | succeeds exactly for a positive period, otherwise `InvalidParameter`; the weight is 2/(period+1), fresh and at 0 |
| `Ema.Step` | src/indicators/ema.rs:47-55 | the output is the new current value; period and weight are kept; the first input is returned unchanged |
| `Ema.StepCandle` | src/indicators/ema.rs:61-63 | a candle is its close |
| `Ema.Restart` | src/indicators/ema.rs:67-70 | reset keeps period and weight and gives back the freshly constructed average |
| `Ema.BetweenPreviousAndInput` | src/indicators/ema.rs:47-55 | after the first input each output is `k·x + (1−k)·previous`, between the previous output and the input |
| `Ema.FirstOutputIsInput` | src/indicators/ema.rs:112-123 | after a reset the next input is returned unchanged |
| `Ema.PeriodThreeExample` | src/indicators/ema.rs:95-109 | EMA(3) has weight 0.5 and turns 2, 5, 1, 6.25 into 2, 3.5, 2.25, 4.25 |
| `Ema.Decode` | src/indicators/ema.rs:11-20 | reading back restores period and weight, with the skipped fields at their defaults |
| `Ema.DecodeEncode` | src/indicators/ema.rs:136-149 | writing then reading gives the average back reset, a fresh one unchanged; EMA(3) is written as period 3, weight 0.5 |
| `Ema.ExponentialMovingAverage.Init` | src/indicators/ema.rs:28-33 | the fields are set from the given state |
| `Ema.ExponentialMovingAverage.New` | src/indicators/ema.rs:25-35 | as `Create`, on a fresh object |
| `Ema.ExponentialMovingAverage.Default` | src/indicators/ema.rs:73-77 | the default has period 9 |
| `Ema.ExponentialMovingAverage.Next` | src/indicators/ema.rs:47-55 | the object moves as `Step` says |
| `Ema.ExponentialMovingAverage.NextCandle` | src/indicators/ema.rs:61-63 | the object moves as `StepCandle` says |
| `Ema.ExponentialMovingAverage.Reset` | src/indicators/ema.rs:67-70 | the object moves as `Restart` says |
| `Sma.Create` | src/indicators/indicator.rs:752-754 | succeeds exactly for a positive period, otherwise `InvalidParameter`, with an empty window |
| `Sma.Step` | src/indicators/indicator.rs:244-256 | the window slides over the input, keeping at most `period` values, and the output is its mean |
| `Sma.StepCandle` | src/indicators/indicator.rs:244-256 | a candle is its close |
| `Sma.Restart` | src/indicators/indicator.rs:244-256 | reset empties the window and gives back the freshly constructed average |
| `Sma.Feed` | src/indicators/indicator.rs:244-256 | a run keeps the period and gives one output per input |
| `Sma.FeedSnoc` | src/indicators/indicator.rs:244-256 | one more input extends the run by one step |
| `Sma.FeedWindow` | src/indicators/indicator.rs:244-256 | from construction the window is the last `min(n, period)` inputs and each output their mean |
| `Sma.FirstOutputIsInput` | src/indicators/indicator.rs:244-256 | the first output after a reset is the input |
| `Sma.Decode` | src/indicators/indicator.rs:752-754 | reading back a period checks it as construction does |
| `Sma.DecodeEncode` | src/indicators/indicator.rs:752-754 | writing then reading gives the average back reset |
| `Sma.SimpleMovingAverage.Init` | src/indicators/indicator.rs:752-754 | the object is the freshly constructed average |
| `Sma.SimpleMovingAverage.New` | src/indicators/indicator.rs:752-754 | as `Create`, on a fresh object |
| `Sma.SimpleMovingAverage.Next` | src/indicators/indicator.rs:244-256 | the object moves as `Step` says |
| `Sma.SimpleMovingAverage.NextCandle` | src/indicators/indicator.rs:244-256 | the object moves as `StepCandle` says |
| `Sma.SimpleMovingAverage.Reset` | src/indicators/indicator.rs:244-256 | the object moves as `Restart` says |
| `Rsi.Create` | src/indicators/indicator.rs:772-774 | succeeds exactly for a positive period, otherwise `InvalidParameter`, with no input seen |
| `Rsi.Step` | src/indicators/indicator.rs:218-230 | the input is recorded and the output is the index of the period over every input since the reset |
| `Rsi.StepCandle` | src/indicators/indicator.rs:218-230 | a candle is its close |
| `Rsi.Restart` | src/indicators/indicator.rs:218-230 | reset forgets the inputs and gives back the freshly constructed index |
| `Rsi.SameHistorySameOutput` | src/indicators/indicator.rs:218-230 | two indices of one period that saw the same inputs answer alike |
| `Rsi.Decode` | src/indicators/indicator.rs:772-774 | reading back a period checks it as construction does |
| `Rsi.DecodeEncode` | src/indicators/indicator.rs:772-774 | writing then reading gives the index back reset |
| `Tr.Range` | src/indicators/indicator.rs:305-320 | the true range is at least high − low and both distances to the previous close, and is one of the three; on the first bar it is high − low |
| `Tr.Step` | src/indicators/indicator.rs:305-320 | the output is the range after the remembered close, and the bar's close is remembered |
| `Tr.StepValue` | src/indicators/atr.rs:66-72 | a single value is the bar whose every price is that value |
| `Tr.Restart` | src/indicators/indicator.rs:814-816 | reset gives back the freshly constructed range |
| `Tr.ValueRange` | src/indicators/atr.rs:66-72 | on single values the range is the distance to the previous value, 0 at first |
| `Tr.NonNegative` | src/indicators/indicator.rs:305-320 | a bar whose low is at most its high has a non-negative range |
| `Tr.TrueRange.constructor` | src/indicators/indicator.rs:814-816 | a new range has no previous close |
| `Tr.TrueRange.Next` | src/indicators/indicator.rs:305-320 | the object moves as `Step` says |
| `Tr.TrueRange.NextValue` | src/indicators/atr.rs:66-72 | the object moves as `StepValue` says |
| `Tr.TrueRange.Reset` | src/indicators/indicator.rs:814-816 | the object moves as `Restart` says |
| `Atr.Create` | src/indicators/atr.rs:46-51 | succeeds exactly for a positive period, otherwise `InvalidParameter`; a fresh true range under a fresh EMA of that period |
| `Atr.Step` | src/indicators/atr.rs:74-80 | a bar's true range is fed to the average, whose output is the answer; the state stays valid |
| `Atr.StepValue` | src/indicators/atr.rs:66-72 | a single value is the bar whose every price is that value |
| `Atr.Restart` | src/indicators/atr.rs:82-87 | reset resets both parts and gives back the freshly constructed indicator |
| `Atr.Period` | src/indicators/atr.rs:60-64 | the period is the average's |
| `Atr.FirstOutputIsRange` | src/indicators/atr.rs:125-138 | the first answer after a reset is the bar's high minus its low |
| `Atr.Recurrence` | src/indicators/atr.rs:74-80 | later answers are `k·range + (1−k)·previous` |
| `Atr.PeriodThreeExample` | src/indicators/atr.rs:112-123 | ATR(3) on the three test bars answers 2.5, 2.25, 3.375 |
| `Atr.ResetExample` | src/indicators/atr.rs:125-138 | after a reset the bar (60, 15, 51) answers 45 |
| `Atr.Decode` | src/indicators/atr.rs:30-43 | reading back goes through `new` on the stored period |
| `Atr.DecodeEncode` | src/indicators/atr.rs:14-43 | writing then reading gives the indicator back reset |
| `Atr.AverageTrueRange.Init` | src/indicators/atr.rs:45-51 | the object holds the given parts |
| `Atr.AverageTrueRange.New` | src/indicators/atr.rs:46-51 | as `Create`, on fresh objects |
| `Atr.AverageTrueRange.Default` | src/indicators/atr.rs:89-93 | the default has period 14 |
| `Atr.AverageTrueRange.Next` | src/indicators/atr.rs:74-80 | the object moves as `Step` says |
| `Atr.AverageTrueRange.NextValue` | src/indicators/atr.rs:66-72 | the object moves as `StepValue` says |
| `Atr.AverageTrueRange.Reset` | src/indicators/atr.rs:82-87 | the object moves as `Restart` says |
| `Sd.Create` | src/indicators/sd.rs:39-53 | succeeds exactly for a positive period, otherwise `InvalidParameter`; nothing counted and a zeroed ring buffer of `period` slots |
| `Sd.Advance` | src/indicators/sd.rs:75-101 | the input replaces the slot under the cursor, the cursor wraps at `period`, the count grows to at most `period` and `m2` stays non-negative |
| `Sd.Step` | src/indicators/sd.rs:75-103 | the state advances; with a sound square root the output is never negative |
| `Sd.Restart` | src/indicators/sd.rs:114-124 | reset gives back the freshly constructed state |
| `Sd.CreateHoldsNothing` | src/indicators/sd.rs:39-53 | a fresh state holds the empty window |
| `Sd.RingStep` | src/indicators/sd.rs:76-83 | one step keeps the ring buffer listing the slid window oldest first; the value leaving is the slot under the cursor |
| `Sd.FillWindow` | src/indicators/sd.rs:85-90 | while the window fills, Welford's update gives the exact mean and squared deviations |
| `Sd.SlideWindowMoments` | src/indicators/sd.rs:91-97 | once full, replacing the oldest value keeps the mean and squared deviations exact |
| `Sd.FillStep` | src/indicators/sd.rs:85-100 | a filling step leaves the state holding the longer window |
| `Sd.SlideStep` | src/indicators/sd.rs:91-100 | a sliding step leaves the state holding the slid window |
| `Sd.StepHolds` | src/indicators/sd.rs:75-101 | every step keeps the state holding the last `min(n, period)` inputs, with the clamp never firing |
| `Sd.Feed` | src/indicators/sd.rs:75-103 | a run keeps a valid state of the same period and gives one output per input |
| `Sd.FeedHoldsWindow` | src/indicators/sd.rs:75-103 | from construction the state holds the last `min(n, period)` inputs |
| `Sd.FeedLast` | src/indicators/sd.rs:102 | the last output of a run is the output of its final state |
| `Sd.HoldsMeanAndDeviation` | src/indicators/sd.rs:55-57 | a state holding a non-empty window has its mean as `mean()` and answers its population standard deviation |
| `Sd.MeanAndDeviationOfWindow` | src/indicators/sd.rs:75-103 | after any inputs `mean()` is the window's mean and the output its population standard deviation |
| `Sd.ConstantDeviation` | src/indicators/sd.rs:174-180 | a constant window has deviation 0 |
| `Sd.ConstantInputGivesZero` | src/indicators/sd.rs:174-180 | a constant input gives 0 every time |
| `Sd.FirstOutputAfterResetIsZero` | src/indicators/sd.rs:183-191 | after a reset the next output is 0 |
| `Sd.PeriodFourExample` | src/indicators/sd.rs:151-155 | SD(4) answers 0 then 5 to 10, 20, and after 30 the variance is 200/3 (8.165 at the test's rounding) |
| `Sd.Decode` | src/indicators/sd.rs:24-36 | reading back goes through `new` on the stored period |
| `Sd.DecodeEncode` | src/indicators/sd.rs:8-36 | writing then reading gives the indicator back reset |
| `Sd.StandardDeviation.Init` | src/indicators/sd.rs:44-51 | the object is the freshly constructed state on a fresh array |
| `Sd.StandardDeviation.New` | src/indicators/sd.rs:39-53 | as `Create`, on a fresh object and array |
| `Sd.StandardDeviation.Default` | src/indicators/sd.rs:126-130 | the default has period 9 |
| `Sd.StandardDeviation.Next` | src/indicators/sd.rs:75-103 | the object and its buffer move as `Step` says, in place |
| `Sd.StandardDeviation.NextCandle` | src/indicators/sd.rs:109-111 | a candle is its close |
| `Sd.StandardDeviation.Reset` | src/indicators/sd.rs:114-124 | the loop zeroes the buffer in place, giving `Restart` |
| `Bb.Create` | src/indicators/bb.rs:54-60 | succeeds exactly for a positive period (the deviation's `new` decides), otherwise `InvalidParameter`; a fresh deviation of the same period |
| `Bb.Bands` | src/indicators/bb.rs:80-84 | the average is the mean and both bands lie `deviation × multiplier` from it |
| `Bb.Step` | src/indicators/bb.rs:76-85 | the deviation advances on the input and its new mean is banded by its output |
| `Bb.StepCandle` | src/indicators/bb.rs:91-93 | a candle is its close |
| `Bb.Restart` | src/indicators/bb.rs:96-99 | reset resets only the deviation and gives back the freshly constructed bands |
| `Bb.Symmetric` | src/indicators/bb.rs:80-84 | the bands are symmetric about the average |
| `Bb.Ordered` | src/indicators/bb.rs:80-84 | with a non-negative multiplier the average lies between the bands |
| `Bb.FirstOutputIsInput` | src/indicators/bb.rs:159-183 | the first output after a reset has all three values equal to the input |
| `Bb.Feed` | src/indicators/bb.rs:76-85 | a run keeps period and multiplier and gives one output per input |
| `Bb.FeedRunsDeviation` | src/indicators/bb.rs:76-85 | the bands run the deviation sub-indicator on the same inputs |
| `Bb.AverageIsWindowMean` | src/indicators/bb.rs:76-85 | after any inputs the average is the mean of the last `min(n, period)` inputs and the bands lie `multiplier` population standard deviations of that window away |
| `Bb.PeriodThreeExample` | src/indicators/bb.rs:134-156 | BB(3, 2) on 2, 5, 1, 6.25 has averages 2, 3.5, 8/3, 49/12, and bands 6.5 and 0.5 at the second step |
| `Bb.Decode` | src/indicators/bb.rs:22-44 | reading back builds a fresh deviation of the stored period, failing as its `new` does |
| `Bb.DecodeEncode` | src/indicators/bb.rs:13-44 | writing then reading gives the bands back reset |
| `Bb.BollingerBands.Init` | src/indicators/bb.rs:55-59 | the object holds the given fields |
| `Bb.BollingerBands.New` | src/indicators/bb.rs:54-60 | as `Create`, on fresh objects |
| `Bb.BollingerBands.Default` | src/indicators/bb.rs:102-106 | the default has period 9 and multiplier 2 |
| `Bb.BollingerBands.Next` | src/indicators/bb.rs:76-85 | the object moves as `Step` says |
| `Bb.BollingerBands.NextCandle` | src/indicators/bb.rs:91-93 | the object moves as `StepCandle` says |
| `Bb.BollingerBands.Reset` | src/indicators/bb.rs:96-99 | the object moves as `Restart` says |
| `Macd.Create` | src/indicators/macd.rs:93-99 | succeeds exactly when all three periods are positive, otherwise `InvalidParameter`; three fresh averages |
| `Macd.Step` | src/indicators/macd.rs:130-143 | macd is fast minus slow, the signal averages the macd, the histogram is their gap |
| `Macd.StepCandle` | src/indicators/macd.rs:149-151 | a candle is its close |
| `Macd.Restart` | src/indicators/macd.rs:161-167 | reset resets the three averages and gives back the freshly constructed indicator |
| `Macd.Period` | src/indicators/macd.rs:154-159 | the period is the slow average's |
| `Macd.ToVec` | src/indicators/macd.rs:115-119 | the vector is macd, signal, histogram in that order |
| `Macd.Feed` | src/indicators/macd.rs:130-143 | a run gives one output per input and keeps the state valid |
| `Macd.HistogramEverywhere` | src/indicators/macd.rs:134-136 | every output's histogram is macd minus signal |
| `Macd.FirstOutputIsZero` | src/indicators/macd.rs:207-211 | the first output after a reset is (0, 0, 0) |
| `Macd.ResetReplays` | src/indicators/macd.rs:219-230 | two indicators of the same periods, once reset, answer any inputs alike |
| `Macd.ThreeSixFourExact` | src/indicators/macd.rs:209-213 | MACD(3, 6, 4) on 2, 3, 4.2 gives exactly (0, 0, 0), (3/14, 3/35, 9/70), (25.35/49, 63.3/245, 63.45/245), with the averages at 3.35, 138.8/49 and 63.3/245 |
| `Macd.ThreeSixFourStep4` | src/indicators/macd.rs:214 | the input 7 then gives exactly (15801/13720, 105591/171500, 183843/343000) |
| `Macd.ThreeSixFourStep5` | src/indicators/macd.rs:215 | the input 6.7 then gives exactly (220779/192080, 9954297/12005000, 7688781/24010000) |
| `Macd.ThreeSixFourStep6` | src/indicators/macd.rs:216 | the input 6.5 then gives exactly (506385/537824, 734571099/840350000, 113310927/1680700000) |
| `Macd.ThreeSixFourExample` | src/indicators/macd.rs:208-216 | rounded to two decimals, all six steps are the test's triples, from (0, 0, 0) to (0.94, 0.87, 0.07) |
| `Macd.Decode` | src/indicators/macd.rs:71-90 | reading back goes through `new` on the three stored periods |
| `Macd.DecodeEncode` | src/indicators/macd.rs:51-90 | writing then reading gives the indicator back reset |
| `Macd.MovingAverageConvergenceDivergence.Init` | src/indicators/macd.rs:94-98 | the object holds the given averages |
| `Macd.MovingAverageConvergenceDivergence.New` | src/indicators/macd.rs:93-99 | as `Create`, on three fresh, distinct averages |
| `Macd.MovingAverageConvergenceDivergence.Default` | src/indicators/macd.rs:169-173 | the default has periods 12, 26, 9 |
| `Macd.MovingAverageConvergenceDivergence.Next` | src/indicators/macd.rs:130-143 | the object moves as `Step` says |
| `Macd.MovingAverageConvergenceDivergence.NextCandle` | src/indicators/macd.rs:149-151 | the object moves as `StepCandle` says |
| `Macd.MovingAverageConvergenceDivergence.Reset` | src/indicators/macd.rs:161-167 | the object moves as `Restart` says |
| `Kc.Create` | src/indicators/kc.rs:107-118 | succeeds exactly for a positive period, otherwise `InvalidParameter`; a fresh ATR and a fresh EMA of that period |
| `Kc.Bands` | src/indicators/kc.rs:157-164 | the middle band is the average and the others lie `multiplier × ATR` from it |
| `Kc.Step` | src/indicators/kc.rs:153-165 | the same value feeds the ATR and the EMA, and their outputs are banded |
| `Kc.StepCandle` | src/indicators/kc.rs:171-174 | a candle is its typical price (high + low + close) / 3 |
| `Kc.Restart` | src/indicators/kc.rs:143-148 | reset resets both averages, keeps the multiplier and gives back the freshly constructed channel |
| `Kc.Period` | src/indicators/kc.rs:137-141 | the period is the middle average's |
| `Kc.ToVec` | src/indicators/kc.rs:177-181 | the vector is upper, middle, lower in that order |
| `Kc.StepKeepsRangeNonNegative` | src/indicators/kc.rs:153-155 | the ATR only ever averages non-negative ranges |
| `Kc.Ordered` | src/indicators/kc.rs:157-164 | with a non-negative multiplier the middle band lies between the others |
| `Kc.RestartRangeNonNegative` | src/indicators/kc.rs:143-148 | a reset channel satisfies that invariant |
| `Kc.FirstOutputIsInput` | src/indicators/kc.rs:153-165 | the first output after a reset is the input on all three bands |
| `Kc.Decode` | src/indicators/kc.rs:50-72 | reading back builds both averages from the stored period, failing as their `new` does |
| `Kc.DecodeEncode` | src/indicators/kc.rs:50-92 | writing then reading gives the channel back reset |
| `Kc.KeltnerChannel.Init` | src/indicators/kc.rs:113-117 | the object holds the given parts |
| `Kc.KeltnerChannel.New` | src/indicators/kc.rs:107-118 | as `Create`, on fresh, separate objects |
| `Kc.KeltnerChannel.Default` | src/indicators/kc.rs:100-104 | the default has period 10 and multiplier 2 |
| `Kc.KeltnerChannel.Next` | src/indicators/kc.rs:153-165 | the object moves as `Step` says |
| `Kc.KeltnerChannel.NextCandle` | src/indicators/kc.rs:171-174 | the object moves as `StepCandle` says |
| `Kc.KeltnerChannel.Reset` | src/indicators/kc.rs:143-148 | the object moves as `Restart` says |
| `SuperTrend.Create` | src/indicators/super_trend.rs:54-59 | succeeds exactly for a positive period (the ATR's `new` decides), otherwise `InvalidParameter` |
| `SuperTrend.Bands` | src/indicators/super_trend.rs:72-75 | the two bands lie `multiplier × ATR` either side of the centre |
| `SuperTrend.Step` | src/indicators/super_trend.rs:71-76 | a value feeds the ATR and is its own centre |
| `SuperTrend.StepCandle` | src/indicators/super_trend.rs:82-88 | the ATR sees the whole candle and the centre is (high + low) / 2 |
| `SuperTrend.Restart` | src/indicators/super_trend.rs:62-66 | reset resets only the ATR and gives back the freshly constructed indicator |
| `SuperTrend.Period` | src/indicators/super_trend.rs:38-42 | the period is the ATR's |
| `SuperTrend.ToVec` | src/indicators/super_trend.rs:30-34 | the vector is the lower band, then the upper band |
| `SuperTrend.FirstValueOutput` | src/indicators/super_trend.rs:71-76 | after a reset a value gives both bands at the value |
| `SuperTrend.FirstCandleOutput` | src/indicators/super_trend.rs:82-88 | after a reset a candle gives the median price plus and minus `multiplier` times its range |
| `SuperTrend.CandleBandsOrdered` | src/indicators/super_trend.rs:82-88 | for ordered bars and a non-negative multiplier the lower band never exceeds the upper |
| `SuperTrend.Decode` | src/indicators/super_trend.rs:111-135 | reading back builds the ATR from the stored period, failing as its `new` does |
| `SuperTrend.DecodeEncode` | src/indicators/super_trend.rs:91-135 | writing then reading gives the indicator back reset |
| `SuperTrend.SuperTrend.Init` | src/indicators/super_trend.rs:55-58 | the object holds the given parts |
| `SuperTrend.SuperTrend.New` | src/indicators/super_trend.rs:54-59 | as `Create`, on fresh objects |
| `SuperTrend.SuperTrend.Default` | src/indicators/super_trend.rs:44-51 | the default has multiplier 3 and period 10 |
| `SuperTrend.SuperTrend.Next` | src/indicators/super_trend.rs:71-76 | the object moves as `Step` says |
| `SuperTrend.SuperTrend.NextCandle` | src/indicators/super_trend.rs:82-88 | the object moves as `StepCandle` says |
| `SuperTrend.SuperTrend.Reset` | src/indicators/super_trend.rs:62-66 | the object moves as `Restart` says |
| `Obv.Add` | src/indicators/obv.rs:65 | f64 addition with NaN absorbing: defined exactly when both sides are, and then their sum |
| `Obv.Sub` | src/indicators/obv.rs:67 | f64 subtraction with NaN absorbing |
| `Obv.Step` | src/indicators/obv.rs:61-77 | the close is remembered and the answer is the new total: the first candle's volume, unchanged on an equal close |
| `Obv.Restart` | src/indicators/obv.rs:51-56 | reset gives back the new indicator |
| `Obv.SignRule` | src/indicators/obv.rs:62-69 | a higher close adds the volume, a lower one subtracts it, an equal one keeps the total |
| `Obv.NaNAbsorbs` | src/indicators/obv.rs:62-69 | a NaN total stays NaN until a reset; a missing volume on a move makes it NaN |
| `Obv.FiveCandleExample` | src/indicators/obv.rs:105-140 | closes 100, 105, 102, 108, 104 with volumes 10, 20, 15, 25, 30 give 10, 30, 15, 40, 10 |
| `Obv.Decode` | src/indicators/obv.rs:10-16 | the persisted form is empty and reads back as a new indicator |
| `Obv.DecodeEncode` | src/indicators/obv.rs:142-155 | writing then reading gives the indicator back reset |
| `Obv.OnBalanceVolume.constructor` | src/indicators/obv.rs:24-31 | a new indicator has total 0 and no previous close |
| `Obv.OnBalanceVolume.Next` | src/indicators/obv.rs:61-77 | the object moves as `Step` says |
| `Obv.OnBalanceVolume.Reset` | src/indicators/obv.rs:51-56 | the object moves as `Restart` says |
| `WilliamsR.Create` | src/indicators/williams_r.rs:49-54 | succeeds exactly for a positive period (the queues' `new` decides), otherwise `InvalidParameter`; two empty windows of that capacity |
| `WilliamsR.Percent` | src/indicators/williams_r.rs:121-138 | 0 while either window is filling or the range is degenerate, otherwise `(highest − close) / (highest − lowest) × −100` |
| `WilliamsR.Advance` | src/indicators/williams_r.rs:145-168 | the high and low enter their windows, then the close is rated against them |
| `WilliamsR.Step` | src/indicators/williams_r.rs:117-139 | a value is high, low and close at once |
| `WilliamsR.StepCandle` | src/indicators/williams_r.rs:145-168 | a candle gives its high, low and close |
| `WilliamsR.Restart` | src/indicators/williams_r.rs:101-106 | reset empties both windows and gives back the freshly constructed indicator |
| `WilliamsR.PercentRange` | src/indicators/williams_r.rs:133-138 | a price between the lowest low and the highest high rates in [−100, 0] |
| `WilliamsR.NewestWithinExtrema` | src/indicators/williams_r.rs:125-132 | the newest entry of a window lies within its f64-seeded extrema |
| `WilliamsR.ValueRange` | src/indicators/williams_r.rs:117-139 | on single values the output lies in [−100, 0] |
| `WilliamsR.CandleRange` | src/indicators/williams_r.rs:145-168 | on a candle whose close lies between its low and high the output lies in [−100, 0] |
| `WilliamsR.Feed` | src/indicators/williams_r.rs:117-139 | a run gives one output per input |
| `WilliamsR.FeedWindows` | src/indicators/williams_r.rs:117-139 | from construction both windows hold the last `min(n, period)` inputs |
| `WilliamsR.WarmUpIsZero` | src/indicators/williams_r.rs:121-123 | while fewer than `period` inputs have arrived the output is 0 |
| `WilliamsR.Decode` | src/indicators/williams_r.rs:74-87 | reading back goes through `new` on the stored period |
| `WilliamsR.DecodeEncode` | src/indicators/williams_r.rs:58-87 | writing then reading gives the indicator back reset |
| `WilliamsR.WilliamsR.Init` | src/indicators/williams_r.rs:50-53 | the object holds the given windows |
| `WilliamsR.WilliamsR.New` | src/indicators/williams_r.rs:49-54 | as `Create`, on two fresh windows |
| `WilliamsR.WilliamsR.Default` | src/indicators/williams_r.rs:39-46 | the default has period 14 |
| `WilliamsR.WilliamsR.Push` | src/indicators/williams_r.rs:145-168 | the windows move and the output is as `Advance` says |
| `WilliamsR.WilliamsR.Next` | src/indicators/williams_r.rs:117-139 | the object moves as `Step` says |
| `WilliamsR.WilliamsR.NextCandle` | src/indicators/williams_r.rs:145-168 | the object moves as `StepCandle` says |
| `WilliamsR.WilliamsR.Reset` | src/indicators/williams_r.rs:101-106 | the object moves as `Restart` says |
| `Stoch.Create` | src/indicators/stoch.rs:66-78 | succeeds exactly when the period and the smoothing are positive (a zero period refused first, then the average's refusal), otherwise `InvalidParameter`; an empty window and a fresh %D average |
| `Stoch.Highs` | src/indicators/stoch.rs:102 | the highs of the window, in order |
| `Stoch.Lows` | src/indicators/stoch.rs:103 | the lows of the window, in order |
| `Stoch.Step` | src/indicators/stoch.rs:97-112 | the candle enters the window, which keeps the last `period`; %K is the close's place in the window's range (0 on an empty range), %D the average of %K; both ×100 |
| `Stoch.RestartAsWritten` | src/indicators/stoch.rs:121-125 | reset as written clears only the window and keeps %D's average |
| `Stoch.Restart` | src/indicators/stoch.rs:121-125 | the corrected reset clears the window and %D's average, giving back the freshly constructed oscillator |
| `Stoch.RawKRange` | src/indicators/stoch.rs:105-109 | unscaled %K lies in [0, 1] when the close lies within the newest candle's range |
| `Stoch.StepInRange` | src/indicators/stoch.rs:92-112 | on an ordered candle both %K and %D lie in [0, 100], and the average keeps remembering values in [0, 1] |
| `Stoch.CreateInRange` | src/indicators/stoch.rs:66-78 | a constructed or reset oscillator remembers nothing out of range |
| `Stoch.Feed` | src/indicators/stoch.rs:97-112 | a run keeps the periods and gives one output per candle |
| `Stoch.HlcsOf` | src/indicators/stoch.rs:98 | one remembered triple per candle |
| `Stoch.Ks` | src/indicators/stoch.rs:110-111 | the unscaled %K values of a run, in order |
| `Stoch.FeedWindow` | src/indicators/stoch.rs:98-101 | from construction the window is the last `min(n, period)` candles |
| `Stoch.FeedUnfold` | src/indicators/stoch.rs:97-112 | a run is its prefix followed by one step |
| `Stoch.StepKeepsAverage` | src/indicators/stoch.rs:110 | each step keeps %D's average the window of the unscaled %K values answered so far |
| `Stoch.AverageWindow` | src/indicators/stoch.rs:110 | from an empty average, %D's average holds the last `min(n, smoothing)` unscaled %K values |
| `Stoch.KsSnoc` | src/indicators/stoch.rs:110-111 | one more output adds its unscaled %K at the end |
| `Stoch.DIsAverageOfK` | src/indicators/stoch.rs:110-111 | after at least one candle %D is 100 times the mean of the last `min(n, smoothing)` unscaled %K values |
| `Stoch.ExampleStep1` | src/indicators/stoch.rs:154-158 | the first test candle gives %K 50 and, with the partial mean, %D 50 |
| `Stoch.ExampleStep2` | src/indicators/stoch.rs:160-166 | the second gives %K 250/3 and %D 200/3 |
| `Stoch.ExampleStep3` | src/indicators/stoch.rs:168-174 | the third gives %K and %D 250/3 |
| `Stoch.ExampleStep4` | src/indicators/stoch.rs:176-182 | the fourth gives %K 800/9 and %D 775/9 |
| `Stoch.ExampleStep5` | src/indicators/stoch.rs:184-190 | the fifth gives %K 100/3 and %D 550/9 |
| `Stoch.ExampleStep6` | src/indicators/stoch.rs:192-198 | the sixth gives %K 20/3 and %D exactly 20 |
| `Stoch.PeriodThreeExample` | src/indicators/stoch.rs:141-201 | STOCH(3, 2) on the six test candles gives those %K and %D values |
| `Stoch.RestartAsWrittenKeepsAverage` | src/indicators/stoch.rs:121-125 | as written, STOCH(1, 2) fed %K 50, reset, then a candle closing at its low answers %D 25 where a new oscillator answers 0 |
| `Stoch.RestartExampleFirst` | src/indicators/stoch.rs:121-125 | the first candle of that example leaves %K 0.5 in the average |
| `Stoch.RestartExampleWindow` | src/indicators/stoch.rs:121-125 | the candle closing at its low has %K 0 |
| `Stoch.RestartExampleKept` | src/indicators/stoch.rs:121-125 | with the kept average it answers %D 25 |
| `Stoch.RestartExampleCleared` | src/indicators/stoch.rs:121-125 | with a cleared average it answers %D 0 |
| `Stoch.RestartReplays` | src/indicators/stoch.rs:279-294 | after the corrected reset the oscillator answers any candles as a new one does |
| `Stoch.DecodeAsWritten` | src/indicators/stoch.rs:34-52 | deserialising as written checks only the smoothing and keeps any period |
| `Stoch.DecodeAsWrittenAcceptsZeroPeriod` | src/indicators/stoch.rs:34-52 | a period of 0 is read back although `new` refuses it |
| `Stoch.Decode` | src/indicators/stoch.rs:66-78 | the corrected deserialisation goes through `new` |
| `Stoch.DecodeEncode` | src/indicators/stoch.rs:203-267 | reading back a written oscillator gives it reset, so replaying the inputs reproduces its outputs |
| `Stoch.StochasticOscillator.Init` | src/indicators/stoch.rs:72-77 | the object holds the periods, an empty window and the given average |
| `Stoch.StochasticOscillator.New` | src/indicators/stoch.rs:66-78 | as `Create`, on fresh objects |
| `Stoch.StochasticOscillator.Default` | src/indicators/stoch.rs:54-63 | the default has periods 14 and 3 |
| `Stoch.StochasticOscillator.Next` | src/indicators/stoch.rs:97-112 | the object moves as `Step` says |
| `Stoch.StochasticOscillator.Reset` | src/indicators/stoch.rs:121-125 | the object moves as the corrected `Restart` says |
| `Ao.Create` | src/indicators/ao.rs:114-119 | succeeds exactly when both periods are positive (the long average is built first), otherwise `InvalidParameter` |
| `Ao.Step` | src/indicators/ao.rs:127-131 | both averages see the value and the answer is short minus long |
| `Ao.StepCandle` | src/indicators/ao.rs:137-142 | a candle feeds its median price (high + low) / 2 |
| `Ao.Period` | src/indicators/ao.rs:100-104 | the period is the larger of the two averages' periods |
| `Ao.Restart` | src/indicators/ao.rs:106-111 | reset resets both averages and gives back the freshly constructed oscillator |
| `Ao.Feed` | src/indicators/ao.rs:127-131 | a run keeps both periods and gives one output per input |
| `Ao.FeedRunsAverages` | src/indicators/ao.rs:127-131 | the two averages run on the same inputs as the oscillator |
| `Ao.DifferenceOfWindowMeans` | src/indicators/ao.rs:127-131 | from construction each output is the mean of the last `min(n, short)` inputs minus that of the last `min(n, long)` |
| `Ao.LastOutput` | src/indicators/ao.rs:127-131 | each output is the short average's output minus the long one's on the same inputs |
| `Ao.EqualPeriodsGiveZero` | src/indicators/ao.rs:127-131 | with equal periods the oscillator always answers 0 |
| `Ao.FirstOutputIsZero` | src/indicators/ao.rs:106-131 | the first output after a reset is 0 |
| `Ao.Decode` | src/indicators/ao.rs:49-63 | reading back goes through `new` on the two stored periods |
| `Ao.DecodeEncode` | src/indicators/ao.rs:49-81 | writing then reading gives the oscillator back reset |
| `Ao.AwesomeOscillator.Init` | src/indicators/ao.rs:115-118 | the object holds the given averages |
| `Ao.AwesomeOscillator.New` | src/indicators/ao.rs:114-119 | as `Create`, on two fresh, distinct averages |
| `Ao.AwesomeOscillator.Next` | src/indicators/ao.rs:127-131 | the object moves as `Step` says |
| `Ao.AwesomeOscillator.NextCandle` | src/indicators/ao.rs:137-142 | the object moves as `StepCandle` says |
| `Ao.AwesomeOscillator.Reset` | src/indicators/ao.rs:106-111 | the object moves as `Restart` says |
| `Mae.Create` | src/indicators/mae.rs:42-53 | succeeds exactly for a positive period, otherwise `InvalidParameter`; an empty window and mean 0 |
| `Mae.Step` | src/indicators/mae.rs:64-77 | the input enters the window, which keeps the last `period`, the window's mean is stored and the answer is its mean absolute deviation |
| `Mae.StepCandle` | src/indicators/mae.rs:83-85 | a candle is its close |
| `Mae.Restart` | src/indicators/mae.rs:94-98 | reset empties the window and zeroes the mean, giving back the freshly constructed indicator |
| `Mae.NonNegative` | src/indicators/mae.rs:70-76 | the output is never negative |
| `Mae.ConstantIsZero` | src/indicators/mae.rs:64-77 | a window equal to the input throughout answers 0 and stores the input as mean |
| `Mae.FirstOutputIsZero` | src/indicators/mae.rs:94-98 | the first output after a reset is 0 |
| `Mae.Feed` | src/indicators/mae.rs:64-77 | a run keeps the period and gives one output per input |
| `Mae.FeedWindow` | src/indicators/mae.rs:64-77 | from construction the window is the last `min(n, period)` inputs, `mean` their mean and the output their mean absolute deviation |
| `Mae.PeriodThreeExample` | src/indicators/mae.rs:64-77 | MAE(3) on 1, 2, 6 answers 2 at the third input |
| `Mae.DecodeAsWritten` | src/indicators/mae.rs:14-23 | the derived reader accepts any period, with an empty window and mean 0 |
| `Mae.DecodeAsWrittenAcceptsZeroPeriod` | src/indicators/mae.rs:14-23 | a period of 0 is read back although `new` refuses it |
| `Mae.Decode` | src/indicators/mae.rs:42-53 | the corrected reader goes through `new` |
| `Mae.DecodeEncode` | src/indicators/mae.rs:14-23 | writing then reading gives the indicator back reset |
| `Mae.MeanAbsoluteError.Init` | src/indicators/mae.rs:48-52 | the object has the period, an empty window and mean 0 |
| `Mae.MeanAbsoluteError.New` | src/indicators/mae.rs:42-53 | as `Create`, on a fresh object |
| `Mae.MeanAbsoluteError.Default` | src/indicators/mae.rs:25-33 | the default has period 14 |
| `Mae.MeanAbsoluteError.Next` | src/indicators/mae.rs:64-77 | the object moves as `Step` says |
| `Mae.MeanAbsoluteError.NextCandle` | src/indicators/mae.rs:83-85 | the object moves as `StepCandle` says |
| `Mae.MeanAbsoluteError.Reset` | src/indicators/mae.rs:94-98 | the object moves as `Restart` says |
| `Smma.Create` | src/indicators/smma.rs:60-73 | succeeds exactly for a period of at least 2, otherwise `InvalidParameter`; the queue holds the dummy 0 and there is no average yet |
| `Smma.Step` | src/indicators/smma.rs:91-114 | the period and the queue's capacity are kept and the queue never overflows; once seeded the queue is no longer touched |
| `Smma.StepCandle` | src/indicators/smma.rs:120-122 | a candle is its close |
| `Smma.Restart` | src/indicators/smma.rs:125-130 | reset gives back the freshly constructed average |
| `Smma.Feed` | src/indicators/smma.rs:91-114 | a run keeps the period and gives one output per input |
| `Smma.Seeding` | src/indicators/smma.rs:93-101 | while it fills, the queue holds the dummy and the inputs and every output is its input |
| `Smma.FirstAverage` | src/indicators/smma.rs:94-99 | the `period`-th input evicts the dummy and answers the mean of the first `period` inputs, which seeds the smoothing |
| `Smma.Smoothing` | src/indicators/smma.rs:106-109 | after seeding each output is `(previous × (period − 1) + input) / period` and becomes the new average |
| `Smma.FeedSnoc` | src/indicators/smma.rs:91-114 | one more input extends the run by one step |
| `Smma.FirstThree` | src/indicators/smma.rs:149-155 | SMMA(3) on 1, 2, 3 answers 1, 2, 2 and is seeded with 2 |
| `Smma.SmoothingFrom` | src/indicators/smma.rs:106-109 | smoothing from a known period and previous average |
| `Smma.AfterSeed` | src/indicators/smma.rs:156-159 | seeded with 2, SMMA(3) answers 4 with 8/3 and then 5 with 31/9 |
| `Smma.PeriodThreeExample` | src/indicators/smma.rs:149-160 | SMMA(3) turns 1, 2, 3, 4, 5 into 1, 2, 2, 8/3, 31/9 |
| `Smma.DecodeAsWritten` | src/indicators/smma.rs:41-57 | deserialising as written builds an empty queue and checks only `period > 0` |
| `Smma.DecodeAsWrittenDiffersFromNew` | src/indicators/smma.rs:41-57 | as written, period 1 is read back although `new` refuses it, and a read-back SMMA(2) answers 1, 2 to 1, 2 where a new one answers 1, 1.5 |
| `Smma.Decode` | src/indicators/smma.rs:60-73 | the corrected deserialisation goes through `new` |
| `Smma.DecodeEncode` | src/indicators/smma.rs:25-39 | writing then reading a constructed average gives it back reset |
| `Smma.SmoothedMovingAverage.Init` | src/indicators/smma.rs:68-72 | the object holds the period and queue, with no average |
| `Smma.SmoothedMovingAverage.New` | src/indicators/smma.rs:60-73 | as `Create`, on fresh objects |
| `Smma.SmoothedMovingAverage.Next` | src/indicators/smma.rs:91-114 | the object and its queue move as `Step` says |
| `Smma.SmoothedMovingAverage.NextCandle` | src/indicators/smma.rs:120-122 | the object moves as `StepCandle` says |
| `Smma.SmoothedMovingAverage.Reset` | src/indicators/smma.rs:125-130 | a fresh queue with the dummy pushed; the object moves as `Restart` says |
| `Smma.SmoothedMovingAverage.Default` | src/indicators/smma.rs:133-137 | the default is a fresh `new(14)` |
| `Alligator.NewLine` | src/indicators/alligator.rs:102-107 | a fresh line: an SMMA of the period and an empty shift queue of the shift's capacity |
| `Alligator.Create` | src/indicators/alligator.rs:83-109 | succeeds exactly when every period is at least 2 and every shift at least 1, otherwise `InvalidParameter`; three fresh lines |
| `Alligator.Standard` | src/indicators/alligator.rs:112-114 | jaw SMMA(13) shifted 8, teeth SMMA(8) shifted 5, lips SMMA(5) shifted 3 |
| `Alligator.Shift` | src/indicators/alligator.rs:140-151 | the value enters the shift queue and the line answers the evicted value, or the queue's front, that is the oldest of the held values and the new one |
| `Alligator.LineStep` | src/indicators/alligator.rs:136-151 | a line advances its average and shifts the average's output |
| `Alligator.Step` | src/indicators/alligator.rs:135-154 | the three lines step on the same input, in the order jaw, teeth, lips |
| `Alligator.StepCandle` | src/indicators/alligator.rs:160-164 | a candle feeds its median price (high + low) / 2 |
| `Alligator.Period` | src/indicators/alligator.rs:123-130 | the largest of the three lines' period plus shift |
| `Alligator.StandardPeriod` | src/indicators/alligator.rs:123-130 | the standard Alligator's period is 21, the jaw's 13 + 8 |
| `Alligator.LineRestart` | src/indicators/alligator.rs:167-175 | a line's reset resets its average and replaces its queue with an empty one of the same capacity |
| `Alligator.Restart` | src/indicators/alligator.rs:167-175 | reset gives back the freshly constructed Alligator |
| `Alligator.ShiftFeed` | src/indicators/alligator.rs:140-151 | pushing a run through a shift queue keeps its capacity and gives one output per value |
| `Alligator.ShiftDelays` | src/indicators/alligator.rs:140-151 | through an empty queue of capacity `c` the `i`-th output is the value pushed `c` calls earlier once `i ≥ c`, the first value before that |
| `Alligator.LineFeed` | src/indicators/alligator.rs:136-151 | a line's run keeps its period and gives one output per input |
| `Alligator.LineFeedComposes` | src/indicators/alligator.rs:136-151 | a line runs its average on the inputs and its queue on the average's outputs |
| `Alligator.LineIsDelayedAverage` | src/indicators/alligator.rs:136-151 | a fresh line answers its average's output of `shift` calls earlier, the first one before that |
| `Alligator.Feed` | src/indicators/alligator.rs:135-154 | a run keeps the Alligator valid and gives one output per input |
| `Alligator.Jaws` | src/indicators/alligator.rs:153 | the jaw values of a run of outputs |
| `Alligator.Teeth` | src/indicators/alligator.rs:153 | the teeth values of a run of outputs |
| `Alligator.Lips` | src/indicators/alligator.rs:153 | the lips values of a run of outputs |
| `Alligator.ProjectSnoc` | src/indicators/alligator.rs:153 | one more output extends each projection by its component |
| `Alligator.FeedRunsLines` | src/indicators/alligator.rs:135-154 | the three lines run independently on the same inputs |
| `Alligator.JawIsDelayed` | src/indicators/alligator.rs:136-143 | a fresh Alligator's jaw is its SMMA delayed by the jaw shift |
| `Alligator.TeethAreDelayed` | src/indicators/alligator.rs:137-147 | the teeth are their SMMA delayed by the teeth shift |
| `Alligator.LipsAreDelayed` | src/indicators/alligator.rs:138-151 | the lips are their SMMA delayed by the lips shift |
| `Alligator.AverageExample` | src/indicators/smma.rs:91-114 | SMMA(2) turns 1, 2, 3, 4 into 1, 1.5, 2.25, 3.125 |
| `Alligator.LineExample` | src/indicators/alligator.rs:136-151 | a line of SMMA(2) shifted by 2 turns 1, 2, 3, 4 into 1, 1, 1, 1.5 |
| `Alligator.Decode` | src/indicators/alligator.rs:49-74 | reading back goes through `new`, so it refuses what `new` refuses |
| `Alligator.DecodeEncode` | src/indicators/alligator.rs:23-74 | writing then reading gives the Alligator back reset |
| `Alligator.Alligator.Init` | src/indicators/alligator.rs:101-108 | the object holds the given averages and queues |
| `Alligator.Alligator.New` | src/indicators/alligator.rs:83-109 | as `Create`, on six fresh, distinct objects |
| `Alligator.Alligator.Default` | src/indicators/alligator.rs:76-80 | the default is the standard Alligator |
| `Alligator.Alligator.ShiftThrough` | src/indicators/alligator.rs:140-143 | the queue and the output move as `Shift` says |
| `Alligator.Alligator.Next` | src/indicators/alligator.rs:135-154 | the objects move as `Step` says and stay distinct |
| `Alligator.Alligator.NextCandle` | src/indicators/alligator.rs:160-164 | the objects move as `StepCandle` says |
| `Alligator.Alligator.Reset` | src/indicators/alligator.rs:167-175 | three fresh queues and reset averages, as `Restart` says |
| `MathBase.Mean` | src/math/base.rs:3-9 | an error `EmptyIterator` exactly for an empty slice, otherwise the sum over the count |
| `MathBase.MeanBounds` | src/math/base.rs:3-9 | the mean lies between any bounds of the prices |
| `MathBase.MeanOfTwo` | src/math/base.rs:23 | the mean of two prices is their midpoint |
| `MathBase.CmpF64` | src/math/base.rs:31-38 | `Less` exactly when `a < b`, `Greater` exactly when `a > b`, `Equal` otherwise, NaN included |
| `MathBase.CmpIsOrder` | src/math/base.rs:31-38 | on values without NaN the comparison is the order of the reals and antisymmetric |
| `MathBase.CmpNaNNotTransitive` | src/math/base.rs:31-38 | NaN compares equal to 1 and to 2 while 1 is less than 2: no total order with NaN |
| `MathBase.Finite` | src/math/base.rs:16-19 | the NaN filter keeps at most the prices given |
| `MathBase.FiniteMembers` | src/math/base.rs:16-19 | a value is kept exactly when it is a price that is not NaN |
| `MathBase.FiniteKeepsAll` | src/math/base.rs:16-19 | without NaN nothing is dropped |
| `MathBase.Insert` | src/math/base.rs:20 | inserting into ascending values keeps them ascending and adds exactly the value |
| `MathBase.SortedOf` | src/math/base.rs:20 | sorting gives an ascending permutation |
| `MathBase.SortedUnique` | src/math/base.rs:20 | two ascending arrangements of the same values are equal, so the result of the sort is determined |
| `MathBase.SortedOfIs` | src/math/base.rs:20 | any ascending permutation is what sorting gives |
| `MathBase.SortingThree` | src/math/base.rs:20 | 3, 1, 2 sorts to 1, 2, 3 |
| `MathBase.MedianFailsWithoutValues` | src/math/base.rs:11-27 | the corrected median fails, with `EmptyIterator`, exactly when no price is a number |
| `MathBase.MedianBounds` | src/math/base.rs:11-27 | the median lies between any bounds of the prices that are not NaN |
| `MathBase.MiddleOfBounds` | src/math/base.rs:21-26 | the middle value, or the mean of the two middle ones, lies between any bounds of the values |
| `MathBase.MedianExample` | src/math/base.rs:11-27 | the median of 3, NaN, 1, 2 is 2 |
| `MathBase.MedianAsWritten` | src/math/base.rs:11-27 | the code as written: an empty slice is `EmptyIterator`; otherwise the middle index of the unfiltered slice, into the filtered values |
| `MathBase.MedianAsWrittenWithoutNaN` | src/math/base.rs:11-27 | without NaN the code as written computes the median |
| `MathBase.MedianAsWrittenWithNaN` | src/math/base.rs:21-26 | with NaN the index runs past the kept values on `[NaN]`, and `[1, 2, NaN]` gives 2 where the median is 1.5 |
| `MathBase.SortInPlace` | src/math/base.rs:20 | the in-place sort leaves the array ascending and a permutation of what it held |
| `MathBase.SinkInto` | src/math/base.rs:20 | one insertion step extends the ascending prefix by one entry and keeps the contents |
| `MathBase.MedianOf` | src/math/base.rs:11-27 | filtering, sorting in place and picking the middle give the corrected median |
| `MathBase.RoundToI64` | src/math/base.rs:70 | `round() as i64`: the rounded value when it fits, saturated at the bounds of `i64`, 0 for NaN |
| `MathBase.MaxCount` | src/math/base.rs:48 | the largest count among the keys, one of them, or 0 without keys |
| `MathBase.Ties` | src/math/base.rs:49-52 | exactly the keys whose count is the given one |
| `MathBase.TiesAreModes` | src/math/base.rs:48-52 | the keys kept are exactly the values that occur at least as often as any value |
| `MathBase.MostFrequentUnique` | src/math/base.rs:42-63 | a value occurring more often than every other is the answer |
| `MathBase.MostFrequentEmpty` | src/math/base.rs:54-55 | nothing to count answers 0 |
| `MathBase.MostFrequentOf` | src/math/base.rs:42-63 | the counting fold, the maximum and the averaging loop compute `MostFrequent` |
| `MathBase.MaxCountOf` | src/math/base.rs:48 | the loop over the keys finds `MaxCount` |
| `MathBase.AverageOfTies` | src/math/base.rs:49-62 | the filter, sum and count compute the average of the ties |
| `MathBase.Rounded` | src/math/base.rs:70 | one rounded integer per price |
| `MathBase.Mode` | src/math/base.rs:65-72 | `EmptyIterator` exactly for an empty slice |
| `MathBase.ModeIsUnique` | src/math/base.rs:65-72 | when one rounded price occurs more often than every other, the mode is that integer |
| `MathBase.ModeExamples` | src/math/base.rs:78-88 | 100.2, 100.46, 100.53, 101.08, 101.19 give 101; with 100.35 in third place they give 100 |
| `Martingale.Run` | src/strategy/binary/martingale.rs:46-77 | a run of results gives one factor per result |
| `Martingale.Martingale.Init` | src/strategy/binary/martingale.rs:37-42 | the parameters as given and no doubling made |
| `Martingale.Martingale.CalculateMultiplier` | src/strategy/binary/martingale.rs:46-77 | the parameters stay; the counter and the factor move as `Step` says |
| `Martingale.Martingale.Modify` | src/strategy/binary/martingale.rs:80-89 | without a last result the amount and counter stay; otherwise the amount is scaled by the factor for that result |
| `Martingale.New` | src/strategy/binary/martingale.rs:29-43 | succeeds exactly for a multiplier above 1 and at least one doubling, otherwise `InvalidParameter`; a fresh counter at 0 |
| `Martingale.WinResets` | src/strategy/binary/martingale.rs:48-57 | a win resets the counter and gives factor 1 under either reset condition |
| `Martingale.LoseDoubles` | src/strategy/binary/martingale.rs:59-66 | a loss below the maximum counts one more doubling with factor `multiplier^(count+1)`; at the maximum factor 1 and the counter stays |
| `Martingale.DrawDepends` | src/strategy/binary/martingale.rs:67-74 | a draw resets under `WinOrDraw`, and under `Win` keeps the counter and its factor |
| `Martingale.PowMonotone` | src/strategy/binary/martingale.rs:62 | powers of a base at least 1 grow with the exponent |
| `Martingale.StepBounds` | src/strategy/binary/martingale.rs:46-77 | the counter never passes the maximum and each factor lies in `[1, multiplier^max_doublings]` |
| `Martingale.RunBounds` | src/strategy/binary/martingale.rs:46-77 | over any run the counter stays within the maximum and every factor within `[1, multiplier^max_doublings]` |
| `Martingale.LosingStreak` | src/strategy/binary/martingale.rs:59-62 | `k` losses in a row within the maximum give the factors `m^(c+1)` … `m^(c+k)` and leave the counter at `c + k` |
| `Martingale.LossesAtMaxStayFlat` | src/strategy/binary/martingale.rs:63-65 | at the maximum further losses give factor 1 each and leave the counter there |
| `Martingale.FirstStakes` | src/strategy/binary/martingale.rs:80-89 | a fresh Martingale keeps an amount without a last result and multiplies it by the multiplier after a loss |
| `Modifier.NoneModifier` | src/strategy/binary/modifier.rs:25-27 | the modifier that leaves amounts alone |
| `Modifier.Default` | src/strategy/binary/modifier.rs:35-39 | the default is the `None` modifier |
| `Modifier.MartingaleModifier` | src/strategy/binary/modifier.rs:30-32 | the Martingale's parameter checks and error come through; on success a fresh counter at 0 |
| `Modifier.Modify` | src/strategy/binary/modifier.rs:41-47 | `None` returns the amount; a Martingale modifies it and moves its counter as `Step` says |
| `Modifier.DefaultKeepsAmount` | src/strategy/binary/modifier.rs:35-47 | the default modifier returns every amount unchanged whatever the last result |
| `Modifier.MartingaleAfterLoss` | src/strategy/binary/modifier.rs:41-47 | a fresh Martingale modifier with multiplier 2 turns a stake of 10 into 20 after a loss |

## Left out

- Floating point: `f64` rounding, overflow and NaN propagation are not modelled. Arithmetic is exact over the reals. NaN is kept only where the code tests for it. The `f64::MIN`/`f64::MAX` fold seeds are the exact largest finite doubles.
- `f64::sqrt`, `OutputType::cmp_output` and the RSI come from code that is not part of this model. They are fields of `Externals.Env`. The only assumption made about them is that the square root is the non-negative root (`Externals.Sound`).
- sma.rs, rsi.rs and tr.rs are not part of this model:
  - SMA is the mean of the inputs so far, capped at the last `period` of them. The Bollinger-band and standard-deviation tests require this.
  - TR is the largest of high − low, |high − previous close| and |low − previous close|, with high − low on the first bar.
  - RSI is an uninterpreted function of its period and its inputs since construction or reset.
- `Queue::push` of the utility crate is not part of this model. It is taken to behave as `next_with` (src/helper_types.rs:90-96).
- The order in which the standard hash map hands back its entries is a parameter. The model draws on it in two places:
  - which of several tied actions a `Majority` sequence returns;
  - which action a `Percentage` sequence reports first.
- The serialised text itself (JSON through serde) is not modelled. Each persisted form is a datatype of what the serialisation writes:
  - an indicator writes its tag and its parameters (`IndicatorEnum.Encoded`); the true range and the pass-through write the tag alone, as the tests at src/indicators/mod.rs:968 and 985 show;
  - a condition writes its indicators and thresholds, without the crossings' previous outputs (`Condition.Encoded`);
  - a tree writes its shape and its conditions (`Node.Encoded`).

  Reading is the constructor or the field-by-field rebuild the code performs. A malformed text is not modelled; its only failure kept is a parameter that the reader refuses.
- IndicatorEnum.Decode: the SMMA, the stochastic oscillator and the mean absolute error are read through `new`, the corrected readers of "## Findings". `IndicatorEnum.DecodeAsWritten` is the reader as written.
- Wrapper.IndicatorState.Decode, Condition.Decode, Node.Decode and Strat.Strategy.Decode: they read indicators through `IndicatorEnum.Decode`, so they too use the corrected readers.
- IndicatorEnum.Valid: a smoothed average counts as valid only with the period of at least 2 that `new` demands. The period-1 average that the as-written reader accepts lies outside the enum's round-trip lemmas.
- IndicatorEnum.Restart: the stochastic oscillator's case runs the corrected `Stoch.Restart`, which also resets %D. As written, `reset` at src/indicators/stoch.rs:121-125 keeps %D, and the enum forwards to it through `auto_implement`; `Stoch.RestartAsWritten` models that.
- Stoch.StochasticOscillator.Reset: it runs the corrected reset and resets %D too, where src/indicators/stoch.rs:121-125 clears only the window.
- Wrapper.IndicatorState.Reset: it reaches the corrected stochastic reset through `IndicatorEnum.Restart`.
- `TaError`'s hand-written equality (src/error.rs:44-66) is not modelled. Errors are compared as values of `Wrappers.TaError`, and their message strings are dropped.
- The operations the strategy calls on its tree but node.rs does not define (`update`, `period`, `reset`, `StrategyNode::default`) are parameters, `Strat.NodeOps`. `Strat.Sound` states what the strategy relies on about them.
- Preprocessing steps (src/preprocessing/mod.rs) leave the data unchanged, as their `apply` does. They are kept only as tags.
- `powf` is a natural-number power, since the Martingale only raises to a doubling count.
- The payout carried by `TradeResult::Win` is not used by any modifier, so the model keeps it but no contract reads it.
- `AwesomeOscillator`'s derived `Default`: it builds its SMAs with `Sma::default`, and sma.rs is not part of this model.
- `IndicatorState::output_shape` and the indicators' `output_shape` are not modelled. `IndicatorEnum.NextValueShape` and `IndicatorEnum.NextCandleShape` state instead that each output has the variant's number of components.
- `Display` implementations, the chipa_lang grammar (`Lang` derives and src/indicators/indicator.rs:577-672), the Node and Python bindings in src/indicators/mod.rs, and `Indicator::Custom` (src/indicators/custom.rs, src/indicators/integration_test.rs) are not modelled.
- Trading and platform code is not modelled: src/strategy/binary/trader.rs, trader_mut.rs, statistics.rs and info.rs, and src/platforms/, which are asynchronous network, file and clock I/O. Only the trade-result type is kept (`Platform.TradeResult`).
- Conditions, strategy trees and the `Indicator` sum type: evaluation returns the updated value instead of mutating through `&mut self`. This is the same state change, but without aliasing.

## Findings

| source | as written | input that shows it | evidently intended | confidence | as-written member | corrected member |
|---|---|---|---|---|---|---|
| src/indicators/smma.rs:41-57 | deserialising builds the queue without the dummy zero that `new` pushes, and checks only `Queue::new(period)`, that is `period > 0` | period 1 is accepted, although `new(1)` fails; a deserialised SMMA(2) answers 1, 2 to the inputs 1, 2, where `new(2)` answers 1, 1.5 | reading back equals `new(period)`, as for the other indicators | high; not executed | `Smma.DecodeAsWrittenDiffersFromNew` | `Smma.DecodeEncode` |
| src/indicators/stoch.rs:121-125 | `reset` clears the window but keeps the %D average | STOCH(1, 2) fed the bar (20, 10, 15), reset, then fed (20, 10, 10) answers %D 25, where a new oscillator answers 0 | `reset` restores the freshly constructed oscillator, as `Reset` does everywhere else | medium; not executed | `Stoch.RestartAsWrittenKeepsAverage` | `Stoch.Restart` |
| src/indicators/stoch.rs:34-52 | deserialising skips the `period == 0` check of `new` | the persisted form with period 0 and smoothing 3 is read back, although `new(0, 3)` fails | reading back goes through `new` | medium; not executed | `Stoch.DecodeAsWrittenAcceptsZeroPeriod` | `Stoch.DecodeEncode` |
| src/indicators/mae.rs:14-23 | the derived deserializer accepts any period | the persisted form with period 0 is read back, although `new(0)` fails | reading back goes through `new`, as the hand-written readers of the other indicators do | medium; not executed | `Mae.DecodeAsWrittenAcceptsZeroPeriod` | `Mae.DecodeEncode` |
| src/math/base.rs:21-26 | the middle index comes from the length of the unfiltered slice, while the NaN values have already been removed | `[NaN]` indexes past the end and panics; `[1, 2, NaN]` answers 2, where the median of 1 and 2 is 1.5 | the middle of the values that are not NaN | high; not executed | `MathBase.MedianAsWrittenWithNaN` | `MathBase.MedianOf` |
