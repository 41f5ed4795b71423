# Genome preparation of the suslik evolutionary rule-order driver

The driver `evolutionary.py` tunes the order in which the suslik synthesizer
tries its "any-phase" rules. The logic it contains is the preparation of one
individual's genome:

- it names the individual's rule-order file from its population id and its
  individual id (`getNewJsonFilePath`);
- it copies the default rule order and reverses the copy;
- it builds the genome record `{numbOfAnyPhaseRules, orderOfAnyPhaseRules}`
  holding the unchanged rule count and the reversed order;
- it dumps that record to the individual's file and loads the file back.

This project models these steps in Dafny:

- `wrappers.dfy` (module `Wrappers`) defines the `Option` type.
- `decimal.dfy` (module `Decimal`) models Python's `str(int)`. It is defined
  for every integer, and negative ids get a leading '-'. Its inverse `ParseInt` comes
  with a proved round trip.
- `rule_order.dfy` (module `RuleOrder`) holds the reference function
  `Reversed`, with its lemmas. It also holds the two methods that do what the
  driver does to a Python list, as arrays: `ReverseInPlace` for
  `list.reverse()`, and `ReverseCopy` for `.copy()` followed by `.reverse()`.
- `evolutionary.py` is modelled by `evolutionary.dfy` (module `Evolutionary`),
  which holds:
  - the path constants and `JsonFilePath`;
  - its inverse `ParseJsonFilePath`;
  - the `Genome` record and `ReversedGenome`;
  - the directory of rule-order files, seen as a map from path to record
    (class `GenomeFiles`);
  - `PrepareIndividual`, the sequence of steps `main` performs.

`JsonFilePath` is a function, so equal ids always give the same path. This is
what lets `main` load, at line 48, the file it dumped at line 45.
`PrepareIndividual` states the consequence: what it loads is what it dumped.
Different id pairs never share a file, because the path can be parsed back
into its ids. Decimal renderings never contain the separator `_`, and that is
why the parse works.

`evolutionary.py` imports `deap`, `numpy` and `random` but uses none of them.
It has no crossover, mutation, selection, elitism, timeout or fitness penalty.
It does not validate the record it reads. So none of these is modelled. The
code never checks that
`numbOfAnyPhaseRules` equals the length of the order. The model does not check
it either: `ReversedGenome` carries the count through as it is.

## Model

| member | source | states |
|---|---|---|
| `Decimal.NatToDecimal` | evolutionary.py:19 | `str(n)` of a non-negative id is a nonempty string of digits, with no leading zero unless `n` is 0 |
| `Decimal.NatToDecimalRoundTrip` | evolutionary.py:19 | the digits of `str(n)` denote `n`: reading them back as a decimal number gives `n` |
| `Decimal.IntToDecimal` | evolutionary.py:19 | `str(i)` is nonempty, contains no '_', and starts with '-' exactly when `i` is negative |
| `Decimal.IntToDecimalRoundTrip` | evolutionary.py:19 | parsing `str(i)` gives `i` back, for every integer |
| `Decimal.IntToDecimalInjective` | evolutionary.py:19 | distinct integers have distinct decimal renderings |
| `Evolutionary.JsonFilePath` | evolutionary.py:15-21 | the path of an individual's file starts with the tactics directory followed by `orderOfRules_`, and ends with `.json` |
| `Evolutionary.JsonFilePathRoundTrip` | evolutionary.py:18-21 | the population id and the individual id can be recovered from the path, by splitting at the first '_' after the prefix |
| `Evolutionary.JsonFilePathInjective` | evolutionary.py:18-21 | two id pairs that give the same path are the same pair, so individuals never collide on a file |
| `Evolutionary.JsonFilePathIsNotDefault` | evolutionary.py:15-21 | no individual's path is the default seed file `defaultOrderOfRules.json` |
| `RuleOrder.Reversed` | evolutionary.py:37-38 | the reversed order has the same length as the original |
| `RuleOrder.ReversedAt` | evolutionary.py:37-38 | position k of the reversed order holds the original's element at n-1-k |
| `RuleOrder.ReversedInvolutive` | evolutionary.py:37-38 | reversing the reversed order gives the original order back |
| `RuleOrder.ReversedPermutation` | evolutionary.py:37-38 | the reversed order has the same multiset of rules as the original, so it is a permutation |
| `RuleOrder.ReverseInPlace` | evolutionary.py:38 | after `list.reverse()` the array holds the reversal of its old contents |
| `RuleOrder.ReverseCopy` | evolutionary.py:37-38 | the copy is a new array holding the reversal of the source, mirrored index by index and with the same multiset, and the source is unchanged |
| `Evolutionary.ReversedGenome` | evolutionary.py:40-43 | the new record keeps `numbOfAnyPhaseRules` unchanged; its order has the original's length and multiset and is mirrored index by index |
| `Evolutionary.ReversedGenomeInvolutive` | evolutionary.py:40-43 | building the reversed record from the reversed record gives the default record back |
| `Evolutionary.GenomeFiles.Dump` | evolutionary.py:45-46 | dumping a record to a path replaces the record at that path and no other |
| `Evolutionary.GenomeFiles.Load` | evolutionary.py:48-49 | loading a path gives the record stored there, or nothing when there is no such file |
| `Evolutionary.PrepareIndividual` | evolutionary.py:34-52 | it works on a fresh copy and leaves the default order unchanged; the dumped record is the reversed genome of the default fields; only the individual's file changes, so the default seed file is kept; and the record loaded back is the one dumped |

## Left out

- Reading the default genome file (evolutionary.py:31-35) is file I/O through the `json` library. `PrepareIndividual` takes the two fields read from that file as parameters.
- JSON encoding and parsing (evolutionary.py:45-49) are not modelled. `GenomeFiles` treats dumping and then loading a record as the identity.
- `Decimal.IntToDecimal`: the interpreter's limit on the number of digits `str(int)` may produce is not modelled. Past 4300 decimal digits, recent CPython versions raise `ValueError`, whereas the model returns the digits. The ids are small counters; `main` uses 3 and 12 (evolutionary.py:24-25).
- `Evolutionary.GenomeFiles.Load`: where Python raises an exception for a missing file, the model returns `None` instead.
- The `roboevaluation.evaluate_n_times` and `write_stats1` calls, and the CSV path they use (evolutionary.py:63-69), are not modelled. That module runs external benchmarks, and roboevaluation.py is not part of this model.
- The fitness value (evolutionary.py:71-76) is not modelled: it is a pandas CSV read followed by a floating-point column sum.
- The two `java -jar` subprocess calls of the synthesizer (evolutionary.py:78-79) are external processes and are not modelled.
- All `print` output (evolutionary.py:26-29, 54-61, 73, 76) is left out.
- The unused `array`, `random`, `numpy` and `deap` imports are left out.
- The rule type is left abstract (a type parameter), because the code never looks inside a rule.
