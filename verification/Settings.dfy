/** The settings loader: an automaton over the parser's flat event stream. */
module SettingsLoader {
  import opened Options

  /** The parser's events, with the scalar text; markers the loader ignores are `Other`. */
  datatype YamlEvent = Scalar(text: string) | MappingStart | MappingEnd | StreamEnd | Other

  /** What a C string keeps of a text: everything in front of the first NUL. */
  function CText(s: string): string {
    if s == "" || s[0] == '\0' then "" else [s[0]] + CText(s[1..])
  }

  // ----- The automaton -----

  /** The local variables of the event loop, and the table being filled; `key` is None for quark 0. */
  datatype Loading = Loading(count: nat, key: Option<string>, useKeys: bool, loaded: map<string, string>)

  const START := Loading(0, None, false, map[])

  function Feed(st: Loading, env: string, e: YamlEvent): Loading {
    match e
    case Scalar(text) =>
      var st1 := st.(count := st.count + 1);
      if st1.count % 2 == 1 then st1.(key := Some(CText(text)))
      else if st1.key.Some? && st1.useKeys then
        st1.(loaded := st1.loaded[st1.key.value := CText(text)], key := None)
      else st1
    case MappingStart =>
      st.(count := 0, useKeys := if st.key.Some? then st.key.value == env else st.useKeys)
    case _ => st
  }

  function FeedAll(st: Loading, env: string, es: seq<YamlEvent>): Loading
    decreases |es|
  {
    if es == [] then st else FeedAll(Feed(st, env, es[0]), env, es[1..])
  }

  lemma {:induction false} FeedAppend(st: Loading, env: string, a: seq<YamlEvent>, b: seq<YamlEvent>)
    ensures FeedAll(st, env, a + b) == FeedAll(FeedAll(st, env, a), env, b)
    decreases |a|
  {
    if a == [] {
      assert a + b == b;
    } else {
      assert (a + b)[1..] == a[1..] + b;
      FeedAppend(Feed(st, env, a[0]), env, a[1..], b);
    }
  }

  /** The events the loop looks at: up to the end of the stream, or all there are if the parser fails first. */
  function Seen(es: seq<YamlEvent>): seq<YamlEvent> {
    if es == [] then [] else if es[0] == StreamEnd then [StreamEnd] else [es[0]] + Seen(es[1..])
  }

  // ----- Documents -----

  datatype Pair = Pair(key: string, value: string)

  /** A top-level entry: a named section of scalar pairs, or a scalar. */
  datatype Entry = Section(name: string, pairs: seq<Pair>) | Plain(pair: Pair)

  function PairEvents(pairs: seq<Pair>): seq<YamlEvent> {
    if pairs == [] then []
    else [Scalar(pairs[0].key), Scalar(pairs[0].value)] + PairEvents(pairs[1..])
  }

  function EntryEvents(e: Entry): seq<YamlEvent> {
    match e
    case Section(name, pairs) => [Scalar(name), MappingStart] + PairEvents(pairs) + [MappingEnd]
    case Plain(pair) => PairEvents([pair])
  }

  function BodyEvents(doc: seq<Entry>): seq<YamlEvent> {
    if doc == [] then [] else EntryEvents(doc[0]) + BodyEvents(doc[1..])
  }

  /** The events of a whole file: stream and document start, the top mapping, document and stream end. */
  function Flatten(doc: seq<Entry>): seq<YamlEvent> {
    [Other, Other, MappingStart] + BodyEvents(doc) + [MappingEnd, Other, StreamEnd]
  }

  function AddPairs(m: map<string, string>, pairs: seq<Pair>): map<string, string>
    decreases |pairs|
  {
    if pairs == [] then m
    else AddPairs(m[CText(pairs[0].key) := CText(pairs[0].value)], pairs[1..])
  }

  /** What a reader of the file expects: the sections named like the environment, later entries winning. */
  function Merge(m: map<string, string>, doc: seq<Entry>, env: string): map<string, string>
    decreases |doc|
  {
    if doc == [] then m
    else
      match doc[0]
      case Section(name, pairs) => Merge(if CText(name) == env then AddPairs(m, pairs) else m, doc[1..], env)
      case Plain(_) => Merge(m, doc[1..], env)
  }

  /** The same document with every top-level scalar moved into the section above it. */
  function Absorb(doc: seq<Entry>): seq<Entry>
    decreases |doc|
  {
    if doc == [] then []
    else
      var (strays, rest) := LeadingPlain(doc[1..]);
      match doc[0]
      case Section(name, pairs) => [Section(name, pairs + strays)] + Absorb(rest)
      case Plain(_) => Absorb(rest)
  }

  function LeadingPlain(doc: seq<Entry>): (r: (seq<Pair>, seq<Entry>))
    ensures |r.1| <= |doc|
    ensures r.1 == [] || r.1[0].Section?
  {
    if doc == [] || doc[0].Section? then ([], doc)
    else
      var (ps, rest) := LeadingPlain(doc[1..]);
      ([doc[0].pair] + ps, rest)
  }

  // ----- What the merge is -----

  /** Everything in front of the first NUL, and nothing else. */
  lemma {:induction false} CTextIs(s: string)
    ensures CText(s) <= s && '\0' !in CText(s)
    ensures |CText(s)| < |s| ==> s[|CText(s)|] == '\0'
  {
    if s != "" && s[0] != '\0' {
      CTextIs(s[1..]);
      assert s == [s[0]] + s[1..];
    }
  }

  /** Pair number `j` of the pairs is the last one with key `k`. */
  predicate LastPair(pairs: seq<Pair>, j: nat, k: string) {
    j < |pairs| && CText(pairs[j].key) == k && forall l :: j < l < |pairs| ==> CText(pairs[l].key) != k
  }

  predicate NoPair(pairs: seq<Pair>, k: string) {
    forall l :: 0 <= l < |pairs| ==> CText(pairs[l].key) != k
  }

  lemma {:induction false} AddSplit(m: map<string, string>, pairs: seq<Pair>)
    ensures AddPairs(m, pairs) == m + AddPairs(map[], pairs)
    decreases |pairs|
  {
    if pairs != [] {
      var k, v := CText(pairs[0].key), CText(pairs[0].value);
      AddSplit(m[k := v], pairs[1..]);
      AddSplit(map[k := v], pairs[1..]);
    }
  }

  lemma {:induction false} PairsLookup(pairs: seq<Pair>, k: string)
    ensures NoPair(pairs, k) ==> k !in AddPairs(map[], pairs)
    ensures forall j: nat :: LastPair(pairs, j, k) ==>
      k in AddPairs(map[], pairs) && AddPairs(map[], pairs)[k] == CText(pairs[j].value)
    decreases |pairs|
  {
    if pairs != [] {
      var rest := pairs[1..];
      PairsLookup(rest, k);
      AddSplit(map[CText(pairs[0].key) := CText(pairs[0].value)], rest);
      assert forall l :: 0 <= l < |rest| ==> rest[l] == pairs[l + 1];
      if NoPair(pairs, k) { assert NoPair(rest, k); }
      forall j: nat | LastPair(pairs, j, k)
        ensures k in AddPairs(map[], pairs) && AddPairs(map[], pairs)[k] == CText(pairs[j].value)
      {
        if j == 0 { assert NoPair(rest, k); } else { assert LastPair(rest, j - 1, k); }
      }
    }
  }

  lemma {:induction false} MergeSplit(m: map<string, string>, doc: seq<Entry>, env: string)
    ensures Merge(m, doc, env) == m + Merge(map[], doc, env)
    decreases |doc|
  {
    if doc != [] {
      match doc[0] {
        case Section(name, pairs) =>
          if CText(name) == env {
            AddSplit(m, pairs);
            MergeSplit(AddPairs(m, pairs), doc[1..], env);
            MergeSplit(AddPairs(map[], pairs), doc[1..], env);
          } else {
            MergeSplit(m, doc[1..], env);
          }
        case Plain(_) => MergeSplit(m, doc[1..], env);
      }
    }
  }

  /** Entry number `i` is a section of the environment that does not mention key `k`, or no such section. */
  predicate Silent(e: Entry, env: string, k: string) {
    e.Section? && CText(e.name) == env ==> forall l :: 0 <= l < |e.pairs| ==> CText(e.pairs[l].key) != k
  }

  /**
   * Independently of how it is computed: a key no section of the environment mentions is not in the merge, and any
   * other key has the value of its last mention, in the last such section that mentions it.
   */
  lemma {:induction false} MergeLookup(doc: seq<Entry>, env: string, k: string)
    ensures (forall i :: 0 <= i < |doc| ==> Silent(doc[i], env, k)) ==> k !in Merge(map[], doc, env)
    ensures forall i: nat, j: nat ::
      i < |doc| && doc[i].Section? && CText(doc[i].name) == env && LastPair(doc[i].pairs, j, k)
      && (forall l :: i < l < |doc| ==> Silent(doc[l], env, k)) ==>
      k in Merge(map[], doc, env) && Merge(map[], doc, env)[k] == CText(doc[i].pairs[j].value)
    decreases |doc|
  {
    if doc != [] {
      var rest, e := doc[1..], doc[0];
      MergeLookup(rest, env, k);
      assert forall l :: 0 <= l < |rest| ==> rest[l] == doc[l + 1];
      if e.Section? && CText(e.name) == env {
        MergeSplit(AddPairs(map[], e.pairs), rest, env);
        PairsLookup(e.pairs, k);
      }
      forall i: nat, j: nat |
        i < |doc| && doc[i].Section? && CText(doc[i].name) == env && LastPair(doc[i].pairs, j, k)
        && (forall l :: i < l < |doc| ==> Silent(doc[l], env, k))
        ensures k in Merge(map[], doc, env) && Merge(map[], doc, env)[k] == CText(doc[i].pairs[j].value)
      {
        if i == 0 {
          assert forall l :: 0 <= l < |rest| ==> Silent(rest[l], env, k);
        } else {
          assert rest[i - 1] == doc[i];
          assert forall l :: i - 1 < l < |rest| ==> Silent(rest[l], env, k);
        }
      }
    }
  }

  // ----- The automaton reads the document -----

  lemma {:induction false} FeedPairs(st: Loading, env: string, pairs: seq<Pair>)
    requires st.count % 2 == 0
    ensures var st' := FeedAll(st, env, PairEvents(pairs));
      && st'.count % 2 == 0 && st'.useKeys == st.useKeys
      && st'.loaded == if st.useKeys then AddPairs(st.loaded, pairs) else st.loaded
    decreases |pairs|
  {
    if pairs != [] {
      var a, b := Scalar(pairs[0].key), Scalar(pairs[0].value);
      var rest := PairEvents(pairs[1..]);
      var st1 := Feed(st, env, a);
      assert st1.count % 2 == 1;
      var st2 := Feed(st1, env, b);
      assert PairEvents(pairs)[1..] == [b] + rest && ([b] + rest)[1..] == rest;
      FeedPairs(st2, env, pairs[1..]);
    }
  }

  lemma FeedSection(st: Loading, env: string, name: string, pairs: seq<Pair>)
    requires st.count % 2 == 0
    ensures var st' := FeedAll(st, env, EntryEvents(Section(name, pairs)));
      && st'.count % 2 == 0 && st'.useKeys == (CText(name) == env)
      && st'.loaded == if st'.useKeys then AddPairs(st.loaded, pairs) else st.loaded
  {
    var st2 := Feed(Feed(st, env, Scalar(name)), env, MappingStart);
    var body := PairEvents(pairs);
    assert EntryEvents(Section(name, pairs)) == [Scalar(name)] + ([MappingStart] + (body + [MappingEnd]));
    FeedAppend(st, env, [Scalar(name)], [MappingStart] + (body + [MappingEnd]));
    FeedAppend(Feed(st, env, Scalar(name)), env, [MappingStart], body + [MappingEnd]);
    FeedAppend(st2, env, body, [MappingEnd]);
    FeedPairs(st2, env, pairs);
  }

  /** What the loader does with a document, entry by entry: a scalar counts for the section read last. */
  function Collect(m: map<string, string>, wanted: bool, doc: seq<Entry>, env: string): map<string, string>
    decreases |doc|
  {
    if doc == [] then m
    else
      match doc[0]
      case Section(name, pairs) =>
        var w := CText(name) == env;
        Collect(if w then AddPairs(m, pairs) else m, w, doc[1..], env)
      case Plain(pair) =>
        Collect(if wanted then AddPairs(m, [pair]) else m, wanted, doc[1..], env)
  }

  lemma {:induction false} FeedBody(st: Loading, env: string, doc: seq<Entry>)
    requires st.count % 2 == 0
    ensures FeedAll(st, env, BodyEvents(doc)).loaded == Collect(st.loaded, st.useKeys, doc, env)
    decreases |doc|
  {
    if doc != [] {
      FeedAppend(st, env, EntryEvents(doc[0]), BodyEvents(doc[1..]));
      var st' := FeedAll(st, env, EntryEvents(doc[0]));
      match doc[0] {
        case Section(name, pairs) => FeedSection(st, env, name, pairs);
        case Plain(pair) => FeedPairs(st, env, [pair]);
      }
      FeedBody(st', env, doc[1..]);
    }
  }

  lemma {:induction false} AddPairsAppend(m: map<string, string>, a: seq<Pair>, b: seq<Pair>)
    ensures AddPairs(m, a + b) == AddPairs(AddPairs(m, a), b)
    decreases |a|
  {
    if a == [] {
      assert a + b == b;
    } else {
      assert (a + b)[1..] == a[1..] + b;
      AddPairsAppend(m[CText(a[0].key) := CText(a[0].value)], a[1..], b);
    }
  }

  lemma {:induction false} CollectStrays(m: map<string, string>, wanted: bool, doc: seq<Entry>, env: string)
    ensures var (strays, rest) := LeadingPlain(doc);
      Collect(m, wanted, doc, env) == Collect(if wanted then AddPairs(m, strays) else m, wanted, rest, env)
    decreases |doc|
  {
    if doc != [] && doc[0].Plain? {
      var (strays, rest) := LeadingPlain(doc[1..]);
      CollectStrays(if wanted then AddPairs(m, [doc[0].pair]) else m, wanted, doc[1..], env);
      AddPairsAppend(m, [doc[0].pair], strays);
    }
  }

  lemma {:induction false} CollectIsMerge(m: map<string, string>, wanted: bool, doc: seq<Entry>, env: string)
    requires doc == [] || doc[0].Section? || !wanted
    ensures Collect(m, wanted, doc, env) == Merge(m, Absorb(doc), env)
    decreases |doc|
  {
    if doc != [] {
      var (strays, rest) := LeadingPlain(doc[1..]);
      match doc[0] {
        case Section(name, pairs) =>
          var w := CText(name) == env;
          var m' := if w then AddPairs(m, pairs) else m;
          CollectStrays(m', w, doc[1..], env);
          AddPairsAppend(m, pairs, strays);
          var m'' := if w then AddPairs(m', strays) else m';
          assert Absorb(doc) == [Section(name, pairs + strays)] + Absorb(rest);
          CollectIsMerge(m'', w, rest, env);
        case Plain(pair) =>
          CollectStrays(m, false, doc[1..], env);
          CollectIsMerge(m, false, rest, env);
      }
    }
  }

  lemma LoadsCollected(doc: seq<Entry>, env: string)
    ensures FeedAll(START, env, Flatten(doc)).loaded == Collect(map[], false, doc, env)
  {
    var head, body, tail := [Other, Other, MappingStart], BodyEvents(doc), [MappingEnd, Other, StreamEnd];
    assert Flatten(doc) == head + (body + tail);
    FeedAppend(START, env, head, body + tail);
    assert FeedAll(START, env, head) == START by {
      assert head[1..] == [Other, MappingStart] && head[1..][1..] == [MappingStart];
    }
    FeedAppend(START, env, body, tail);
    var st := FeedAll(START, env, body);
    assert FeedAll(st, env, tail) == st by {
      assert tail[1..] == [Other, StreamEnd] && tail[1..][1..] == [StreamEnd];
    }
    FeedBody(START, env, doc);
  }

  /**
   * Exactly what is loaded from any such file: the merge of the environment's sections, where a top-level scalar
   * counts as part of the section above it.
   */
  lemma LoadsAbsorbed(doc: seq<Entry>, env: string)
    ensures FeedAll(START, env, Flatten(doc)).loaded == Merge(map[], Absorb(doc), env)
  {
    LoadsCollected(doc, env);
    CollectIsMerge(map[], false, doc, env);
  }

  lemma {:induction false} AbsorbSections(doc: seq<Entry>)
    requires forall e :: e in doc ==> e.Section?
    ensures Absorb(doc) == doc
  {
    if doc != [] {
      assert doc[0] in doc;
      assert doc[1..] != [] ==> doc[1] in doc;
      assert doc[0].pairs + [] == doc[0].pairs;
      AbsorbSections(doc[1..]);
      assert doc == [doc[0]] + doc[1..];
    }
  }

  /** A document of sections is read back as the right-biased merge of the environment's sections. */
  lemma RoundTrip(doc: seq<Entry>, env: string)
    requires forall e :: e in doc ==> e.Section?
    ensures FeedAll(START, env, Flatten(doc)).loaded == Merge(map[], doc, env)
  {
    LoadsAbsorbed(doc, env);
    AbsorbSections(doc);
  }

  // ----- Top-level scalars -----

  /** The keys of the top-level scalars below a section of the environment. */
  function StrayKeys(doc: seq<Entry>, env: string, wanted: bool): set<string>
    decreases |doc|
  {
    if doc == [] then {}
    else
      match doc[0]
      case Section(name, _) => StrayKeys(doc[1..], env, CText(name) == env)
      case Plain(pair) => (if wanted then {CText(pair.key)} else {}) + StrayKeys(doc[1..], env, wanted)
  }

  /**
   * The top-level scalars below a section of the environment whose key no later such section sets, each key with
   * the last value given for it.
   */
  function Over(doc: seq<Entry>, env: string, wanted: bool): map<string, string>
    decreases |doc|
  {
    if doc == [] then map[]
    else
      match doc[0]
      case Section(name, _) => Over(doc[1..], env, CText(name) == env)
      case Plain(pair) =>
        var later := Over(doc[1..], env, wanted);
        if wanted && CText(pair.key) !in Merge(map[], doc[1..], env)
        then map[CText(pair.key) := CText(pair.value)] + later
        else later
  }

  lemma Regroup(a: map<string, string>, b: map<string, string>, c: map<string, string>, d: map<string, string>)
    ensures (a + b) + (c + d) == a + ((b + c) + d)
  {
  }

  /** A key given before `later` and `after` counts only if neither sets it. */
  lemma Insert(m: map<string, string>, k: string, v: string, later: map<string, string>, after: map<string, string>)
    ensures m[k := v] + (later + after) == m + (later + if k in later then after else map[k := v] + after)
  {
  }

  lemma {:induction false} CollectOver(m: map<string, string>, wanted: bool, doc: seq<Entry>, env: string)
    ensures Collect(m, wanted, doc, env) == m + (Merge(map[], doc, env) + Over(doc, env, wanted))
    decreases |doc|
  {
    if doc != [] {
      var rest := doc[1..];
      match doc[0] {
        case Section(name, pairs) =>
          var w := CText(name) == env;
          CollectOver(if w then AddPairs(m, pairs) else m, w, rest, env);
          if w {
            AddSplit(m, pairs);
            MergeSplit(AddPairs(map[], pairs), rest, env);
            Regroup(m, AddPairs(map[], pairs), Merge(map[], rest, env), Over(rest, env, w));
          }
        case Plain(pair) =>
          CollectOver(if wanted then AddPairs(m, [pair]) else m, wanted, rest, env);
          if wanted {
            var k, v := CText(pair.key), CText(pair.value);
            assert AddPairs(m, [pair]) == m[k := v];
            Insert(m, k, v, Merge(map[], rest, env), Over(rest, env, wanted));
          }
      }
    }
  }

  lemma {:induction false} OverKeys(doc: seq<Entry>, env: string, wanted: bool)
    ensures Over(doc, env, wanted).Keys <= StrayKeys(doc, env, wanted)
    ensures StrayKeys(doc, env, wanted) <= Merge(map[], doc, env).Keys + Over(doc, env, wanted).Keys
    decreases |doc|
  {
    if doc != [] {
      match doc[0] {
        case Section(name, pairs) =>
          OverKeys(doc[1..], env, CText(name) == env);
          MergeSplit(AddPairs(map[], pairs), doc[1..], env);
        case Plain(pair) => OverKeys(doc[1..], env, wanted);
      }
    }
  }

  /**
   * For any such file, the loader gives the settings of the environment's sections overridden by `Over`. They are
   * the intended ones if and only if every scalar in `Over` repeats a setting with its value, and have the
   * intended keys if and only if every scalar below an environment section repeats a key.
   */
  lemma StrayScalars(doc: seq<Entry>, env: string)
    ensures var got, meant := FeedAll(START, env, Flatten(doc)).loaded, Merge(map[], doc, env);
      var over := Over(doc, env, false);
      && got == meant + over
      && (got == meant <==> forall k :: k in over ==> k in meant && meant[k] == over[k])
      && (got.Keys == meant.Keys <==> StrayKeys(doc, env, false) <= meant.Keys)
      && (StrayKeys(doc, env, false) == {} ==> got == meant)
  {
    LoadsCollected(doc, env);
    CollectOver(map[], false, doc, env);
    OverKeys(doc, env, false);
    var got, meant := FeedAll(START, env, Flatten(doc)).loaded, Merge(map[], doc, env);
    var over := Over(doc, env, false);
    forall k | k in over ensures k in got && got[k] == over[k] {}
  }

  /** The failing inputs at their simplest: a scalar below the section always wins over the section. */
  lemma StrayScalarIsLoaded(env: string, pairs: seq<Pair>, p: Pair)
    requires '\0' !in env
    ensures var doc := [Section(env, pairs), Plain(p)];
      && Merge(map[], doc, env) == AddPairs(map[], pairs)
      && FeedAll(START, env, Flatten(doc)).loaded == AddPairs(map[], pairs)[CText(p.key) := CText(p.value)]
  {
    var doc, stray := [Section(env, pairs), Plain(p)], [Plain(p)];
    CTextPlain(env);
    assert doc[1..] == stray && stray[1..] == [];
    assert Merge(AddPairs(map[], pairs), stray, env) == AddPairs(map[], pairs);
    assert Over(stray, env, true) == map[CText(p.key) := CText(p.value)];
    LoadsCollected(doc, env);
    CollectOver(map[], false, doc, env);
  }

  lemma {:induction false} CTextPlain(s: string)
    requires '\0' !in s
    ensures CText(s) == s
  {
    if s != "" { CTextPlain(s[1..]); }
  }

  // ----- The settings object -----

  class Settings {
    var env: string
    var table: map<string, string>
    var loaded: map<string, string>

    constructor (env: string)
      ensures this.env == env && table == map[] && loaded == map[]
    {
      this.env := env;
      table, loaded := map[], map[];
    }

    /**
     * `input` is None if the file cannot be opened, otherwise the events the parser delivers before it ends or
     * fails. Readers see nothing of it, and a parser failure is not reported.
     */
    method LoadFromFile(input: Option<seq<YamlEvent>>) returns (ok: bool)
      modifies this`loaded
      ensures ok <==> input.Some?
      ensures loaded == if ok then FeedAll(START, env, Seen(input.value)).loaded else old(loaded)
    {
      if input.None? { return false; }
      var events := input.value;
      loaded := map[];
      var done, count, useKeys := false, 0, false;
      var key: Option<string> := None;
      var i := 0;
      ghost var goal := FeedAll(START, env, Seen(events));
      assert events[0..] == events;
      while !done && i < |events|
        invariant 0 <= i <= |events|
        invariant goal == FeedAll(Loading(count, key, useKeys, loaded), env, if done then [] else Seen(events[i..]))
        decreases |events| - i
      {
        var event := events[i];
        ghost var st := Loading(count, key, useKeys, loaded);
        assert events[i..][0] == event && events[i..][1..] == events[i + 1..];
        SeenHead(st, env, events[i..]);
        done := event == StreamEnd;
        match event {
          case Scalar(text) =>
            count := count + 1;
            if count % 2 == 1 {
              key := Some(CText(text));
            } else if key.Some? {
              if useKeys {
                loaded := loaded[key.value := CText(text)];
                key := None;
              }
            }
          case MappingStart =>
            if key.Some? { useKeys := key.value == env; }
            count := 0;
          case _ =>
        }
        assert Loading(count, key, useKeys, loaded) == Feed(st, env, event);
        i := i + 1;
      }
      assert !done ==> events[i..] == [];
      return true;
    }

    /** The loaded table becomes the one readers see; a second commit would leave them none. */
    method Commit()
      modifies this`table, this`loaded
      ensures table == old(loaded) && loaded == map[]
    {
      table := loaded;
      loaded := map[];
    }

    function GetStr(key: string, defaultValue: Option<string>): Option<string>
      reads this`table
    {
      if key in table then Some(table[key]) else defaultValue
    }

    function GetBool(key: string, defaultValue: bool): bool
      reads this`table
    {
      if key in table then table[key] == "yes" || table[key] == "true" else defaultValue
    }
  }

  lemma SeenHead(st: Loading, env: string, es: seq<YamlEvent>)
    requires es != []
    ensures FeedAll(st, env, Seen(es)) ==
      FeedAll(Feed(st, env, es[0]), env, if es[0] == StreamEnd then [] else Seen(es[1..]))
  {
    var rest := if es[0] == StreamEnd then [] else Seen(es[1..]);
    assert Seen(es) == [es[0]] + rest;
  }

  /** If the parser fails before the end of the stream, everything it delivered counts. */
  lemma {:induction false} SeenUnended(es: seq<YamlEvent>)
    requires StreamEnd !in es
    ensures Seen(es) == es
  {
    if es != [] {
      SeenUnended(es[1..]);
      assert es == [es[0]] + es[1..];
    }
  }

  /** Otherwise everything up to the end of the stream does, and nothing behind it. */
  lemma {:induction false} SeenAll(a: seq<YamlEvent>, more: seq<YamlEvent>)
    requires StreamEnd !in a
    ensures Seen(a + [StreamEnd] + more) == a + [StreamEnd]
  {
    if a == [] {
      assert a + [StreamEnd] + more == [StreamEnd] + more;
    } else {
      assert (a + [StreamEnd] + more)[1..] == a[1..] + [StreamEnd] + more;
      SeenAll(a[1..], more);
    }
  }

  lemma {:induction false} NoStreamEnd(doc: seq<Entry>)
    ensures StreamEnd !in BodyEvents(doc)
  {
    if doc != [] {
      match doc[0] {
        case Section(_, pairs) => PairsNoStreamEnd(pairs);
        case Plain(pair) => PairsNoStreamEnd([pair]);
      }
      NoStreamEnd(doc[1..]);
    }
  }

  lemma {:induction false} PairsNoStreamEnd(pairs: seq<Pair>)
    ensures StreamEnd !in PairEvents(pairs)
  {
    if pairs != [] { PairsNoStreamEnd(pairs[1..]); }
  }

  /**
   * The start of the daemon: load, verify, commit. `verified` is what `Settings::verify` answers. Readers get what
   * the file says, and only if all three steps went well; otherwise they see what they saw before.
   */
  method LoadAndCommit(settings: Settings, file: Option<seq<Entry>>, verified: bool) returns (ok: bool)
    modifies settings
    ensures ok <==> file.Some? && verified
    ensures settings.env == old(settings.env)
    ensures var seen := if ok then Merge(map[], Absorb(file.value), settings.env) else old(settings.table);
      && (forall key, d :: settings.GetStr(key, d) == if key in seen then Some(seen[key]) else d)
      && (forall key, d :: settings.GetBool(key, d) == if key in seen then seen[key] in {"yes", "true"} else d)
  {
    var input := if file.None? then None else Some(Flatten(file.value));
    ok := settings.LoadFromFile(input);
    if !ok || !verified { return false; }
    ghost var front := [Other, Other, MappingStart] + BodyEvents(file.value) + [MappingEnd, Other];
    NoStreamEnd(file.value);
    assert input.value == front + [StreamEnd] == front + [StreamEnd] + [];
    SeenAll(front, []);
    LoadsAbsorbed(file.value, settings.env);
    settings.Commit();
  }
}
