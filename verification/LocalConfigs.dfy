/** The local transport limits and their textual form in the provider options. */
module LocalConfigs {
  import opened Prelude
  import opened Decimal

  const QUEUE_CAPACITY := "local.queue_capacity"
  const MAX_OUTSTANDING := "local.max_total_outstanding"
  const MAX_WEIGHT := "local.max_total_outstanding_weight_bytes"
  const PROVIDER_OPTIONS := "provider_options"

  datatype LocalConfig = LocalConfig(queueCapacity: nat, maxOutstanding: nat, maxWeight: Option<nat>)

  /** A configuration, or the field an error names. */
  datatype ConfigResult = Parsed(config: LocalConfig) | Invalid(field: string)

  function DefaultConfig(): (c: LocalConfig) {
    LocalConfig(1024, 65536, None)
  }

  /** The values the fields can hold. */
  predicate Representable(c: LocalConfig) {
    c.queueCapacity <= USIZE_MAX && c.maxOutstanding <= USIZE_MAX && (c.maxWeight.Some? ==> 0 < c.maxWeight.value <= USIZE_MAX)
  }

  predicate ValidConfig(c: LocalConfig) {
    Representable(c) && 0 < c.queueCapacity && 0 < c.maxOutstanding
  }

  /** `validate`: the first field that is zero, if any. */
  function ZeroField(c: LocalConfig): (field: Option<string>) {
    if c.queueCapacity == 0 then Some(QUEUE_CAPACITY)
    else if c.maxOutstanding == 0 then Some(MAX_OUTSTANDING)
    else None
  }

  function ProviderOptions(c: LocalConfig): (m: map<string, string>) {
    var limits := map[QUEUE_CAPACITY := ToText(c.queueCapacity), MAX_OUTSTANDING := ToText(c.maxOutstanding)];
    if c.maxWeight.Some? then limits[MAX_WEIGHT := ToText(c.maxWeight.value)] else limits
  }

  predicate KnownOption(key: string) {
    key == QUEUE_CAPACITY || key == MAX_OUTSTANDING || key == MAX_WEIGHT
  }

  /** The field an entry is rejected for, if it is: its own, or the option list for an unknown key. */
  function EntryError(key: string, value: string): (field: Option<string>) {
    if !KnownOption(key) then Some(PROVIDER_OPTIONS)
    else if key == MAX_WEIGHT then (if ParsePositive(value).Some? then None else Some(key))
    else if ParseUsize(value).Some? then None
    else Some(key)
  }

  // ----- what a whole option map means, without any order -----

  function Limit(m: map<string, string>, key: string, default: nat): (n: nat) {
    if key in m && ParseUsize(m[key]).Some? then ParseUsize(m[key]).value else default
  }

  function ConfigOf(m: map<string, string>): (c: LocalConfig) {
    LocalConfig(Limit(m, QUEUE_CAPACITY, 1024), Limit(m, MAX_OUTSTANDING, 65536),
                if MAX_WEIGHT in m then ParsePositive(m[MAX_WEIGHT]) else None)
  }

  /** Every key is known and every value is a positive integer of the type. */
  predicate Acceptable(m: map<string, string>) {
    forall key | key in m :: KnownOption(key) && ParsePositive(m[key]).Some?
  }

  function ToMap(entries: seq<(string, string)>): (m: map<string, string>) {
    if entries == [] then map[]
    else ToMap(entries[..|entries| - 1])[entries[|entries| - 1].0 := entries[|entries| - 1].1]
  }

  predicate DistinctKeys(entries: seq<(string, string)>) {
    forall i, j | 0 <= i < j < |entries| :: entries[i].0 != entries[j].0
  }

  predicate EntriesParse(entries: seq<(string, string)>) {
    forall i | 0 <= i < |entries| :: EntryError(entries[i].0, entries[i].1).None?
  }

  /** The first entry that is rejected. */
  predicate FirstError(entries: seq<(string, string)>, i: nat, field: string) {
    i < |entries| && EntryError(entries[i].0, entries[i].1) == Some(field) && EntriesParse(entries[..i])
  }

  lemma {:induction false} EntryIn(entries: seq<(string, string)>, i: nat)
    requires DistinctKeys(entries) && i < |entries|
    ensures entries[i].0 in ToMap(entries) && ToMap(entries)[entries[i].0] == entries[i].1
  {
    var last := |entries| - 1;
    if i < last {
      EntryIn(entries[..last], i);
      assert entries[..last][i] == entries[i];
    }
  }

  lemma {:induction false} KeyOf(entries: seq<(string, string)>, key: string) returns (i: nat)
    requires key in ToMap(entries)
    ensures i < |entries| && entries[i].0 == key
  {
    var last := |entries| - 1;
    if entries[last].0 == key {
      i := last;
    } else {
      i := KeyOf(entries[..last], key);
    }
  }

  /** Reads the options one by one, in any order of the map, and validates the result. */
  method FromProviderOptions(entries: seq<(string, string)>) returns (r: ConfigResult)
    requires DistinctKeys(entries)
    ensures r.Parsed? <==> Acceptable(ToMap(entries))
    ensures r.Parsed? ==> r.config == ConfigOf(ToMap(entries)) && ValidConfig(r.config)
    ensures r.Invalid? ==>
              || (exists i :: FirstError(entries, i, r.field))
              || (EntriesParse(entries) && ZeroField(ConfigOf(ToMap(entries))) == Some(r.field))
  {
    hide ParseUsize, ParsePositive, Acceptable, ToMap, ConfigOf, EntriesParse;
    KeysDiffer();
    NoEntries();
    var local := DefaultConfig();
    var i := 0;
    while i < |entries|
      invariant 0 <= i <= |entries|
      invariant EntriesParse(entries[..i])
      invariant local == ConfigOf(ToMap(entries[..i])) && Representable(local)
    {
      var key, value := entries[i].0, entries[i].1;
      if EntryError(key, value).Some? {
        assert FirstError(entries, i, EntryError(key, value).value);
        NotAcceptable(entries, i);
      } else {
        NextEntry(entries, i);
      }
      if key == QUEUE_CAPACITY {
        var n := ParseUsize(value);
        if n.None? {
          return Invalid(QUEUE_CAPACITY);
        }
        local := local.(queueCapacity := n.value);
      } else if key == MAX_OUTSTANDING {
        var n := ParseUsize(value);
        if n.None? {
          return Invalid(MAX_OUTSTANDING);
        }
        local := local.(maxOutstanding := n.value);
      } else if key == MAX_WEIGHT {
        var n := ParsePositive(value);
        if n.None? {
          return Invalid(MAX_WEIGHT);
        }
        local := local.(maxWeight := n);
      } else {
        return Invalid(PROVIDER_OPTIONS);
      }
      i := i + 1;
    }
    assert entries[..|entries|] == entries;
    ParsedIsAcceptable(entries);
    if local.queueCapacity == 0 {
      return Invalid(QUEUE_CAPACITY);
    }
    if local.maxOutstanding == 0 {
      return Invalid(MAX_OUTSTANDING);
    }
    r := Parsed(local);
  }

  lemma NoEntries()
    ensures ConfigOf(ToMap([])) == DefaultConfig() && EntriesParse([])
  {
  }

  /** What one more valid entry does to the configuration. */
  lemma NextEntry(entries: seq<(string, string)>, i: nat)
    requires i < |entries| && EntriesParse(entries[..i]) && EntryError(entries[i].0, entries[i].1).None?
    ensures EntriesParse(entries[..i + 1])
    ensures var (key, value) := entries[i]; var c, c' := ConfigOf(ToMap(entries[..i])), ConfigOf(ToMap(entries[..i + 1]));
            && (key == QUEUE_CAPACITY ==> c' == c.(queueCapacity := ParseUsize(value).value))
            && (key == MAX_OUTSTANDING ==> c' == c.(maxOutstanding := ParseUsize(value).value))
            && (key == MAX_WEIGHT ==> c' == c.(maxWeight := ParsePositive(value)))
  {
    hide ParseUsize, ParsePositive;
    KeysDiffer();
    var before, after := entries[..i], entries[..i + 1];
    assert after[..i] == before && after[i] == entries[i];
  }

  lemma NotAcceptable(entries: seq<(string, string)>, i: nat)
    requires DistinctKeys(entries) && i < |entries| && EntryError(entries[i].0, entries[i].1).Some?
    ensures !Acceptable(ToMap(entries))
  {
    EntryIn(entries, i);
    assert entries[i].0 in ToMap(entries);
  }

  /** When every entry parses, the options are acceptable exactly when validation finds no zero. */
  lemma ParsedIsAcceptable(entries: seq<(string, string)>)
    requires DistinctKeys(entries) && EntriesParse(entries)
    ensures Acceptable(ToMap(entries)) <==> ZeroField(ConfigOf(ToMap(entries))).None?
  {
    var m := ToMap(entries);
    forall key | key in m ensures EntryError(key, m[key]).None? {
      var i := KeyOf(entries, key);
      EntryIn(entries, i);
    }
    if ZeroField(ConfigOf(m)).Some? {
      var key := ZeroField(ConfigOf(m)).value;
      assert key in m && ParsePositive(m[key]).None?;
    }
  }

  // ----- the round trip -----

  /** Parsing the printed options of any valid configuration gives the same configuration. */
  lemma OptionsRoundTrip(c: LocalConfig)
    requires ValidConfig(c)
    ensures Acceptable(ProviderOptions(c)) && ConfigOf(ProviderOptions(c)) == c
  {
    TextRoundTrip(c.queueCapacity);
    TextRoundTrip(c.maxOutstanding);
    if c.maxWeight.Some? {
      TextRoundTrip(c.maxWeight.value);
    }
    KeysDiffer();
  }

  /** A configuration with a zero limit is printed but not accepted again. */
  lemma ZeroIsNotAccepted(c: LocalConfig)
    requires Representable(c) && !ValidConfig(c)
    ensures !Acceptable(ProviderOptions(c))
  {
    TextRoundTrip(c.queueCapacity);
    TextRoundTrip(c.maxOutstanding);
    KeysDiffer();
    var m := ProviderOptions(c);
    assert c.queueCapacity == 0 ==> QUEUE_CAPACITY in m && ParsePositive(m[QUEUE_CAPACITY]).None?;
    assert c.maxOutstanding == 0 ==> MAX_OUTSTANDING in m && ParsePositive(m[MAX_OUTSTANDING]).None?;
  }

  lemma KeysDiffer()
    ensures QUEUE_CAPACITY != MAX_OUTSTANDING && QUEUE_CAPACITY != MAX_WEIGHT && MAX_OUTSTANDING != MAX_WEIGHT
  {
  }

  /** Whatever order the printed options are read in, the method returns the original configuration. */
  method ReadBack(c: LocalConfig, entries: seq<(string, string)>) returns (r: ConfigResult)
    requires ValidConfig(c) && DistinctKeys(entries) && ToMap(entries) == ProviderOptions(c)
    ensures r == Parsed(c)
  {
    OptionsRoundTrip(c);
    r := FromProviderOptions(entries);
  }
}
