/**
 * The genome-preparation step of the evolutionary driver for the synthesizer's
 * rule order: naming each individual's rule-order file, building the reversed
 * genome record, and writing it to that file and reading it back.
 */
module Evolutionary {
  import opened Wrappers
  import opened Decimal
  import opened RuleOrder

  /** Directory of the synthesizer's tactics, where every rule-order file lives. */
  const TacticsDir: string := "src/main/scala/org/tygus/suslik/synthesis/tactics/"
  /** The seed genome the driver starts from. */
  const DefaultOrderJson: string := TacticsDir + "defaultOrderOfRules.json"
  const FilePrefix: string := "orderOfRules_"
  const FileSuffix: string := ".json"

  /**
   * `getNewJsonFilePath`: the file of individual `individualId` of population
   * `populationId`. It lies in the tactics directory and is a `.json` file.
   */
  function JsonFilePath(populationId: int, individualId: int): (path: string)
    ensures TacticsDir + FilePrefix <= path
    ensures |path| > |TacticsDir| + |FilePrefix| + |FileSuffix|
    ensures path[|path| - |FileSuffix|..] == FileSuffix
  {
    TacticsDir + (FilePrefix + IntToDecimal(populationId) + "_" + IntToDecimal(individualId) + FileSuffix)
  }

  /** Position of the first `c` in `s`, or `|s|` when there is none. */
  function IndexOf(s: string, c: char): (r: nat)
    ensures r <= |s|
    ensures r < |s| ==> s[r] == c
    ensures forall j :: 0 <= j < r ==> s[j] != c
    decreases |s|
  {
    if s == [] then 0 else if s[0] == c then 0 else 1 + IndexOf(s[1..], c)
  }

  /**
   * Recovers the id pair from a rule-order file path: the inverse of
   * `JsonFilePath`, splitting at the first '_' after the file prefix.
   */
  function ParseJsonFilePath(path: string): Option<(int, int)> {
    var head := TacticsDir + FilePrefix;
    if |path| < |head| + |FileSuffix| || path[..|head|] != head
       || path[|path| - |FileSuffix|..] != FileSuffix then None
    else
      var ids := path[|head|..|path| - |FileSuffix|];
      var k := IndexOf(ids, '_');
      if k == |ids| then None
      else
        match (ParseInt(ids[..k]), ParseInt(ids[k + 1..]))
        case (Some(p), Some(i)) => Some((p, i))
        case _ => None
  }

  /** Cutting a concatenation at the lengths of its outer parts gives the parts back. */
  lemma SplitAround(head: string, ids: string, suffix: string)
    ensures (head + ids + suffix)[..|head|] == head
    ensures (head + ids + suffix)[|head + ids + suffix| - |suffix|..] == suffix
    ensures (head + ids + suffix)[|head|..|head + ids + suffix| - |suffix|] == ids
  {
  }

  /** When `a` holds no '_', the first '_' of `a + "_" + b` is the separator. */
  lemma SplitAtSeparator(a: string, b: string)
    requires '_' !in a
    ensures IndexOf(a + "_" + b, '_') == |a|
    ensures (a + "_" + b)[..|a|] == a && (a + "_" + b)[|a| + 1..] == b
  {
    var ids := a + "_" + b;
    assert ids[|a|] == '_';
    assert forall j :: 0 <= j < |a| ==> ids[j] == a[j];
  }

  /** Every id pair can be read back from its file path. */
  lemma JsonFilePathRoundTrip(populationId: int, individualId: int)
    ensures ParseJsonFilePath(JsonFilePath(populationId, individualId)) == Some((populationId, individualId))
  {
    var a, b := IntToDecimal(populationId), IntToDecimal(individualId);
    var head, ids := TacticsDir + FilePrefix, a + "_" + b;
    assert JsonFilePath(populationId, individualId) == head + ids + FileSuffix;
    SplitAround(head, ids, FileSuffix);
    SplitAtSeparator(a, b);
    IntToDecimalRoundTrip(populationId);
    IntToDecimalRoundTrip(individualId);
  }

  /**
   * Distinct id pairs never share a file, so no two individuals overwrite
   * each other's genome.
   */
  lemma JsonFilePathInjective(p1: int, i1: int, p2: int, i2: int)
    requires JsonFilePath(p1, i1) == JsonFilePath(p2, i2)
    ensures p1 == p2 && i1 == i2
  {
    JsonFilePathRoundTrip(p1, i1);
    JsonFilePathRoundTrip(p2, i2);
  }

  /** No individual's file is the default seed file. */
  lemma JsonFilePathIsNotDefault(populationId: int, individualId: int)
    ensures JsonFilePath(populationId, individualId) != DefaultOrderJson
  {
    var path := JsonFilePath(populationId, individualId);
    assert path[|TacticsDir|] == 'o';
    assert DefaultOrderJson[|TacticsDir|] == 'd';
  }

  /** The genome record stored in a rule-order file. */
  datatype Genome<R> = Genome(numbOfAnyPhaseRules: int, orderOfAnyPhaseRules: seq<R>)

  /**
   * The record the driver builds from the default genome: the rule count is
   * carried over as it is (never checked against the order's length) and the
   * order is mirrored.
   */
  function ReversedGenome<R>(g: Genome<R>): (h: Genome<R>)
    ensures h.numbOfAnyPhaseRules == g.numbOfAnyPhaseRules
    ensures |h.orderOfAnyPhaseRules| == |g.orderOfAnyPhaseRules|
    ensures multiset(h.orderOfAnyPhaseRules) == multiset(g.orderOfAnyPhaseRules)
    ensures forall k :: 0 <= k < |g.orderOfAnyPhaseRules| ==>
      h.orderOfAnyPhaseRules[k] == g.orderOfAnyPhaseRules[|g.orderOfAnyPhaseRules| - 1 - k]
  {
    var order := g.orderOfAnyPhaseRules;
    ReversedPermutation(order);
    forall k | 0 <= k < |order|
      ensures Reversed(order)[k] == order[|order| - 1 - k]
    {
      ReversedAt(order, k);
    }
    Genome(g.numbOfAnyPhaseRules, Reversed(order))
  }

  /** Building the reversed record twice gives the default record back. */
  lemma ReversedGenomeInvolutive<R>(g: Genome<R>)
    ensures ReversedGenome(ReversedGenome(g)) == g
  {
    ReversedInvolutive(g.orderOfAnyPhaseRules);
  }

  /**
   * The tactics directory seen as a store of genome records keyed by path:
   * dumping a record to a path and loading that path gives the record back.
   */
  class GenomeFiles<R> {
    var files: map<string, Genome<R>>

    constructor (initial: map<string, Genome<R>>)
      ensures files == initial
    {
      files := initial;
    }

    /** `json.dump` of `g` into the file at `path`, replacing what was there. */
    method Dump(path: string, g: Genome<R>)
      modifies this
      ensures files == old(files)[path := g]
    {
      files := files[path := g];
    }

    /** `json.load` of the file at `path`; `None` when there is no such file. */
    method Load(path: string) returns (g: Option<Genome<R>>)
      ensures path in files ==> g == Some(files[path])
      ensures path !in files ==> g == None
    {
      if path in files {
        g := Some(files[path]);
      } else {
        g := None;
      }
    }
  }

  /**
   * The body of `main` between reading the default genome (given here as its
   * two fields) and printing: copy and reverse the order, build the new
   * record, dump it to the individual's file and load it back.
   */
  method PrepareIndividual<R>(store: GenomeFiles<R>, populationId: int, individualId: int,
                              numbOfAnyPhaseRules: int, orderOfAnyPhaseRules: array<R>)
    returns (reversedOrder: array<R>, written: Genome<R>, readBack: Option<Genome<R>>)
    modifies store
    ensures fresh(reversedOrder)
    ensures orderOfAnyPhaseRules[..] == old(orderOfAnyPhaseRules[..])
    ensures written == ReversedGenome(Genome(numbOfAnyPhaseRules, orderOfAnyPhaseRules[..]))
    ensures written.orderOfAnyPhaseRules == reversedOrder[..]
    ensures store.files == old(store.files)[JsonFilePath(populationId, individualId) := written]
    ensures DefaultOrderJson in old(store.files) ==>
      DefaultOrderJson in store.files && store.files[DefaultOrderJson] == old(store.files[DefaultOrderJson])
    ensures readBack == Some(written)
  {
    reversedOrder := ReverseCopy(orderOfAnyPhaseRules);
    written := Genome(numbOfAnyPhaseRules, reversedOrder[..]);
    store.Dump(JsonFilePath(populationId, individualId), written);
    readBack := store.Load(JsonFilePath(populationId, individualId));
    JsonFilePathIsNotDefault(populationId, individualId);
  }
}
