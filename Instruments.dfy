/** The instrument registry: the `futures_data` dictionary literal that both
    scripts declare, kept as its ordered list of entries (the order of the
    literal fills the selection list) together with the map it denotes. */
module Instruments {

  /** Trading metadata of one futures contract. */
  datatype Instrument = Instrument(symbol: string, tickIndex: real, contractSize: real)

  /** One `name: {...}` entry of a dictionary literal. */
  type Entry = (string, Instrument)

  /** The entries of `futures_data`, in declaration order. */
  const FuturesEntries: seq<Entry> := [
    ("Nasdaq 100 (Mini)", Instrument("NQ=F", 0.25, 20.0)),
    ("S&P 500 (Mini)", Instrument("ES=F", 0.25, 50.0)),
    ("Dow Jones (Mini)", Instrument("YM=F", 1.0, 5.0)),
    ("Crude Oil (WTI)", Instrument("CL=F", 0.01, 1000.0)),
    ("Gold (XAU)", Instrument("GC=F", 0.10, 100.0)),
    ("Euro/USD (6E)", Instrument("6E=F", 0.00005, 125000.0))
  ]

  /** The dictionary a literal with these entries evaluates to: a later entry
      with the same name overrides an earlier one. */
  function ToMap(entries: seq<Entry>): (m: map<string, Instrument>)
    ensures forall name :: name in m <==> exists i :: 0 <= i < |entries| && entries[i].0 == name
  {
    if entries == [] then map[]
    else map[entries[0].0 := entries[0].1] + ToMap(entries[1..])
  }

  /** The names of the entries, in order (`list(d.keys())` for distinct names). */
  function KeyList(entries: seq<Entry>): (names: seq<string>)
    ensures |names| == |entries|
    ensures forall i :: 0 <= i < |entries| ==> names[i] == entries[i].0
  {
    if entries == [] then [] else [entries[0].0] + KeyList(entries[1..])
  }

  predicate DistinctNames(entries: seq<Entry>)
  {
    forall i, j :: 0 <= i < j < |entries| ==> entries[i].0 != entries[j].0
  }

  /** `futures_data` as a dictionary. */
  function Table(): map<string, Instrument>
  {
    ToMap(FuturesEntries)
  }

  /** `list(futures_data.keys())`. */
  function Names(): seq<string>
  {
    KeyList(FuturesEntries)
  }

  /** Dollar value of one tick: tick index times contract size. */
  function TickValue(inst: Instrument): real
  {
    inst.tickIndex * inst.contractSize
  }

  /** Dollar value of one point (four ticks). */
  function PointValue(inst: Instrument): real
  {
    TickValue(inst) * 4.0
  }

  predicate WellFormed(inst: Instrument)
  {
    inst.tickIndex > 0.0 && inst.contractSize > 0.0
  }

  lemma WellFormedTickValue(inst: Instrument)
    requires WellFormed(inst)
    ensures TickValue(inst) > 0.0
  {
  }

  /** With distinct names, the dictionary maps each entry's name to that
      entry's record. */
  lemma {:induction false} ToMapAt(entries: seq<Entry>, i: nat)
    requires DistinctNames(entries)
    requires i < |entries|
    ensures entries[i].0 in ToMap(entries)
    ensures ToMap(entries)[entries[i].0] == entries[i].1
  {
    if i > 0 {
      assert DistinctNames(entries[1..]) by {
        forall a, b | 0 <= a < b < |entries[1..]|
          ensures entries[1..][a].0 != entries[1..][b].0
        {
          assert entries[1..][a] == entries[a + 1] && entries[1..][b] == entries[b + 1];
        }
      }
      ToMapAt(entries[1..], i - 1);
      assert entries[1..][i - 1] == entries[i];
    }
  }

  /** Every value the dictionary holds is the record of some entry. */
  lemma {:induction false} ToMapValue(entries: seq<Entry>, name: string)
    requires name in ToMap(entries)
    ensures exists i :: 0 <= i < |entries| && entries[i] == (name, ToMap(entries)[name])
  {
    if entries != [] {
      if name in ToMap(entries[1..]) {
        ToMapValue(entries[1..], name);
        var i :| 0 <= i < |entries[1..]| && entries[1..][i] == (name, ToMap(entries[1..])[name]);
        assert entries[i + 1] == entries[1..][i];
      } else {
        assert entries[0] == (name, ToMap(entries)[name]);
      }
    }
  }

  /** Facts about each declared record, read off the literal one index at a time. */
  lemma FuturesEntryFacts(i: nat)
    requires i < |FuturesEntries|
    ensures WellFormed(FuturesEntries[i].1)
    ensures FuturesEntries[i].1.contractSize != 1.0
  {
  }

  lemma FuturesNamesDistinct()
    ensures DistinctNames(FuturesEntries)
  {
  }

  /** Every instrument of the registry has a positive tick index and contract
      size, so its tick value is positive and dividing by it is defined. */
  lemma TableWellFormed(name: string)
    requires name in Table()
    ensures WellFormed(Table()[name])
    ensures TickValue(Table()[name]) > 0.0
  {
    ToMapValue(FuturesEntries, name);
    var i :| 0 <= i < |FuturesEntries| && FuturesEntries[i] == (name, Table()[name]);
    FuturesEntryFacts(i);
    WellFormedTickValue(FuturesEntries[i].1);
  }

  /** The selection list has six names, without repetition. */
  lemma NamesDistinct()
    ensures |Names()| == 6
    ensures forall i, j :: 0 <= i < j < |Names()| ==> Names()[i] != Names()[j]
  {
  }

  /** The selection list holds exactly the registry's names. */
  lemma NamesAreKeys(name: string)
    ensures name in Names() <==> name in Table()
  {
  }

  /** The i-th name of the selection list looks up the i-th declared record. */
  lemma NameLooksUpEntry(i: nat)
    requires i < |Names()|
    ensures Names()[i] in Table()
    ensures Table()[Names()[i]] == FuturesEntries[i].1
  {
    FuturesNamesDistinct();
    ToMapAt(FuturesEntries, i);
  }

  /** No instrument's contract size is 1. */
  lemma ContractSizesNotOne(name: string)
    requires name in Table()
    ensures Table()[name].contractSize != 1.0
  {
    ToMapValue(FuturesEntries, name);
    var i :| 0 <= i < |FuturesEntries| && FuturesEntries[i] == (name, Table()[name]);
    FuturesEntryFacts(i);
  }
}
