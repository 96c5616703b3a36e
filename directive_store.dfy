/**
 * The agent directive store (`api/server/agent/directive.ts`): one current directive per
 * conversation in `directives.json`, the superseded ones in `directive-history.json`
 * (at most ten per conversation), and a preset list drawn from the history.
 */
module DirectiveStore {
  import opened Wrappers
  import opened Strings
  import opened Seqs
  import opened Disk
  import opened OrderedMap

  datatype Directive = Directive(
    conversationId: string,
    systemPrompt: string,
    personality: Option<string>,
    memoryPolicy: Option<string>,
    lastUpdated: nat)

  /** `directives.json`: the current directive of each conversation. */
  type Directives = map<string, Directive>

  /** `directive-history.json`: superseded directives per conversation, oldest first, in key insertion order. */
  type History = Entries<seq<Directive>>

  /** How many superseded directives a conversation keeps. */
  const HistoryCap: nat := 10

  /** `${x}` for an optional string: an absent value prints as "undefined". */
  function Shown(o: Option<string>): string {
    if o.Some? then o.value else "undefined"
  }

  /** The string `getPresets` de-duplicates on. */
  function PresetKey(d: Directive): string {
    d.systemPrompt + "_" + Shown(d.personality) + "_" + Shown(d.memoryPolicy)
  }

  /**
   * The preset key is not injective: an absent personality and the personality "undefined"
   * give the same key, so `getPresets` keeps only one of two different directives.
   */
  lemma PresetKeyCollision()
    ensures var a := Directive("c", "p", None, None, 0);
            var b := Directive("c", "p", Some("undefined"), None, 0);
            a != b && PresetKey(a) == PresetKey(b)
  {
  }

  /** `history[c] || []`. */
  function HistoryOf(h: History, c: string): (r: seq<Directive>)
    ensures Get(h, c).None? ==> r == []
  {
    Get(h, c).GetOr([])
  }

  /** The history after `saveDirective` has pushed `prior` onto conversation `c` and kept the last ten. */
  function WithPrior(h: History, c: string, prior: Directive): (r: History)
    ensures HistoryOf(r, c) == Last(HistoryOf(h, c) + [prior], HistoryCap)
    ensures |HistoryOf(r, c)| <= HistoryCap
    ensures HistoryOf(r, c)[|HistoryOf(r, c)| - 1] == prior
    ensures forall c' :: c' != c ==> HistoryOf(r, c') == HistoryOf(h, c')
  {
    Put(h, c, Last(HistoryOf(h, c) + [prior], HistoryCap))
  }

  /** Every conversation's history is within the cap. */
  ghost predicate Bounded(h: History) {
    forall c :: |HistoryOf(h, c)| <= HistoryCap
  }

  /** Pushing a prior directive keeps every history within the cap. */
  lemma WithPriorKeepsBounded(h: History, c: string, prior: Directive)
    requires Bounded(h)
    ensures Bounded(WithPrior(h, c, prior))
  {
    var r := WithPrior(h, c, prior);
    forall c' ensures |HistoryOf(r, c')| <= HistoryCap {
      if c' != c {
        assert HistoryOf(r, c') == HistoryOf(h, c');
      }
    }
  }

  /** The history after pushing each of `priors` in turn, as successive saves of one conversation do. */
  function WithPriors(h: History, c: string, priors: seq<Directive>): History
    decreases |priors|
  {
    if |priors| == 0 then h else WithPriors(WithPrior(h, c, priors[0]), c, priors[1..])
  }

  /** What successive pushes leave in the history. */
  lemma {:induction false} WithPriorsHistory(h: History, c: string, priors: seq<Directive>)
    ensures HistoryOf(WithPriors(h, c, priors), c) == AppendCapped(HistoryOf(h, c), priors, HistoryCap)
    decreases |priors|
  {
    if |priors| > 0 {
      WithPriorsHistory(WithPrior(h, c, priors[0]), c, priors[1..]);
    }
  }

  /**
   * However many saves supersede directives of a conversation that had no history, the history
   * holds the last ten superseded ones, in order.
   */
  lemma HistoryKeepsLastTen(h: History, c: string, priors: seq<Directive>)
    requires Get(h, c).None?
    ensures HistoryOf(WithPriors(h, c, priors), c) == Last(priors, HistoryCap)
  {
    WithPriorsHistory(h, c, priors);
    LastAppendAll([], priors, HistoryCap);
    assert [] + priors == priors;
  }

  /**
   * Eleven saves of one conversation supersede ten directives (those of saves 1 to 10), and
   * `slice(-10)` evicts nothing until an eleventh prior exists: the history holds all ten.
   */
  lemma ElevenSavesKeepAllTen(h: History, c: string, priors: seq<Directive>)
    requires Get(h, c).None? && |priors| == HistoryCap
    ensures HistoryOf(WithPriors(h, c, priors), c) == priors
  {
    HistoryKeepsLastTen(h, c, priors);
  }

  /** The presets of a history: the first directive of each key, conversation by conversation. */
  function Presets(h: History): seq<Directive> {
    FirstsBy(Flatten(Values(h)), PresetKey)
  }

  /**
   * An illustration: histories [p1, p2, p3] and [p2, p4] give the presets [p1, p2, p3, p4],
   * each once and in first-seen order.
   */
  lemma PresetsExample(p1: Directive, p2: Directive, p3: Directive, p4: Directive)
    requires PresetKey(p1) != PresetKey(p2) && PresetKey(p1) != PresetKey(p3) && PresetKey(p1) != PresetKey(p4)
    requires PresetKey(p2) != PresetKey(p3) && PresetKey(p2) != PresetKey(p4) && PresetKey(p3) != PresetKey(p4)
    ensures Presets([("a", [p1, p2, p3]), ("b", [p2, p4])]) == [p1, p2, p3, p4]
  {
    var h: History := [("a", [p1, p2, p3]), ("b", [p2, p4])];
    var vs := Values(h);
    assert vs == [[p1, p2, p3], [p2, p4]];
    FlattenStep(vs, 0);
    FlattenStep(vs, 1);
    assert vs[..0] == [] && vs[..2] == vs;
    assert Flatten(vs) == [p1, p2, p3, p2, p4];
    DedupExample(p1, p2, p3, p4, PresetKey);
  }

  /** De-duplicating [p1, p2, p3, p2, p4] by any key that tells the four apart. */
  lemma DedupExample<T>(p1: T, p2: T, p3: T, p4: T, key: T -> string)
    requires key(p1) != key(p2) && key(p1) != key(p3) && key(p1) != key(p4)
    requires key(p2) != key(p3) && key(p2) != key(p4) && key(p3) != key(p4)
    ensures FirstsBy([p1, p2, p3, p2, p4], key) == [p1, p2, p3, p4]
  {
    var s0: seq<T> := [];
    var s1 := s0 + [p1];
    var s2 := s1 + [p2];
    var s3 := s2 + [p3];
    var s4 := s3 + [p2];
    var s5 := s4 + [p4];
    FirstsByAppend(s0, p1, key);
    FirstsByAppend(s1, p2, key);
    FirstsByAppend(s2, p3, key);
    FirstsByAppend(s3, p2, key);
    FirstsByAppend(s4, p4, key);
    assert s5 == [p1, p2, p3, p2, p4];
  }

  /** The inner loop of `getPresets`: one conversation's history, continuing from the entries `before` it. */
  method VisitHistory(presets0: seq<Directive>, seen0: set<string>, ghost before: seq<Directive>,
                      conversationHistory: seq<Directive>, key: Directive -> string)
    returns (presets: seq<Directive>, seen: set<string>)
    requires presets0 == FirstsBy(before, key) && seen0 == KeysOf(before, key)
    ensures presets == FirstsBy(before + conversationHistory, key)
    ensures seen == KeysOf(before + conversationHistory, key)
  {
    presets, seen := presets0, seen0;
    var j := 0;
    ghost var prefix := before;
    assert before + conversationHistory[..0] == before;
    while j < |conversationHistory|
      invariant 0 <= j <= |conversationHistory|
      invariant prefix == before + conversationHistory[..j]
      invariant presets == FirstsBy(prefix, key) && seen == KeysOf(prefix, key)
    {
      var directive := conversationHistory[j];
      var k := key(directive);
      FirstsByAppend(prefix, directive, key);
      if k !in seen {
        seen := seen + {k};
        presets := presets + [directive];
      }
      PrefixStep(before, conversationHistory, j);
      prefix := prefix + [directive];
      j := j + 1;
    }
    assert conversationHistory[..j] == conversationHistory;
  }

  /**
   * The loops of `getPresets` over `Object.values(history)`, with their `seen` set; the key
   * function is a parameter so that the proof does not depend on how keys are spelled.
   */
  method CollectPresets(conversations: seq<seq<Directive>>, key: Directive -> string) returns (presets: seq<Directive>)
    ensures presets == FirstsBy(Flatten(conversations), key)
  {
    presets := [];
    var seen: set<string> := {};
    var i := 0;
    while i < |conversations|
      invariant 0 <= i <= |conversations|
      invariant presets == FirstsBy(Flatten(conversations[..i]), key)
      invariant seen == KeysOf(Flatten(conversations[..i]), key)
    {
      presets, seen := VisitHistory(presets, seen, Flatten(conversations[..i]), conversations[i], key);
      FlattenStep(conversations, i);
      i := i + 1;
    }
    assert conversations[..i] == conversations;
  }

  class DirectiveStore {
    const storePath: string
    const tempPath: string
    const historyPath: string
    /** Set after each successful save and reset by `clearCache`; no operation reads it. */
    var cache: Directives
    /** The parsed history, once `loadHistory` has run. */
    var historyCache: Option<History>
    /** `directives.json` and its temporary file. */
    var files: Files<Directives>
    /** `directive-history.json` and its temporary file. */
    var historyFiles: Files<History>

    ghost predicate Valid() {
      tempPath == storePath + ".tmp" && historyPath != historyPath + ".tmp"
    }

    /** What `loadDirectives` returns: the file's contents, `{}` when missing or unreadable. */
    function CurrentDirectives(): Directives
      reads this
    {
      ValueOr(At(files, storePath), map[])
    }

    /** What `loadHistory` returns now: the cached history, else the file's, else `{}`. */
    function CurrentHistory(): History
      reads this
    {
      if historyCache.Some? then historyCache.value else ValueOr(At(historyFiles, historyPath), [])
    }

    /** `new DirectiveStore(storagePath)`; creating the directory is not modelled. */
    constructor(storagePath: Option<string>, cwd: string, directiveFiles: Files<Directives>, historyFiles: Files<History>)
      ensures Valid()
      ensures var baseDir := OrElse(storagePath, PathJoin(PathJoin(cwd, "data"), "directives"));
        && storePath == PathJoin(baseDir, "directives.json")
        && historyPath == PathJoin(baseDir, "directive-history.json")
      ensures cache == map[] && historyCache == None
      ensures files == directiveFiles && this.historyFiles == historyFiles
    {
      var baseDir := OrElse(storagePath, PathJoin(PathJoin(cwd, "data"), "directives"));
      storePath := PathJoin(baseDir, "directives.json");
      tempPath := PathJoin(baseDir, "directives.json.tmp");
      historyPath := PathJoin(baseDir, "directive-history.json");
      cache := map[];
      historyCache := None;
      files := directiveFiles;
      this.historyFiles := historyFiles;
    }

    /** `loadDirectives()`: reads the file on every call. */
    method LoadDirectives() returns (d: Directives)
      ensures d == CurrentDirectives()
    {
      if storePath !in files {
        return map[];
      }
      match files[storePath]
      case Value(v) => d := v;
      case _ => d := map[];
    }

    /** `loadHistory()`: the cached history, or the file read into the cache (`{}` when missing or unreadable). */
    method LoadHistory() returns (h: History)
      modifies this
      ensures h == old(CurrentHistory()) && historyCache == Some(h)
      ensures files == old(files) && historyFiles == old(historyFiles) && cache == old(cache)
    {
      if historyCache.Some? {
        return historyCache.value;
      }
      if historyPath !in historyFiles {
        historyCache := Some([]);
      } else if historyFiles[historyPath].Value? {
        historyCache := Some(historyFiles[historyPath].v);
      } else {
        historyCache := Some([]);
      }
      h := historyCache.value;
    }

    /** `saveDirectives(directives)`: temporary file then rename; on failure the temporary file is removed and the error rethrown. */
    method SaveDirectives(d: Directives, fault: SaveFault) returns (r: Result<(), SaveFault>)
      requires Valid()
      modifies this
      ensures r == if fault == NoFault then Ok(()) else Err(fault)
      ensures At(files, storePath) == if fault == NoFault then Value(d) else At(old(files), storePath)
      ensures At(files, tempPath) == Missing && SameElsewhere(files, old(files), storePath, tempPath)
      ensures cache == if fault == NoFault then d else old(cache)
      ensures historyCache == old(historyCache) && historyFiles == old(historyFiles)
    {
      files := AfterAtomicSave(files, storePath, tempPath, d, fault);
      if fault == NoFault {
        cache := d;
        return Ok(());
      }
      if tempPath in files {
        files := RemoveFile(files, tempPath);
      }
      return Err(fault);
    }

    /** `saveHistory(history)`: temporary file then rename; a failure is rethrown and the temporary file stays. */
    method SaveHistory(h: History, fault: SaveFault) returns (r: Result<(), SaveFault>)
      requires Valid()
      modifies this
      ensures r == if fault == NoFault then Ok(()) else Err(fault)
      ensures historyFiles == AfterAtomicSave(old(historyFiles), historyPath, historyPath + ".tmp", h, fault)
      ensures historyCache == if fault == NoFault then Some(h) else old(historyCache)
      ensures files == old(files) && cache == old(cache)
    {
      historyFiles := AfterAtomicSave(historyFiles, historyPath, historyPath + ".tmp", h, fault);
      if fault == NoFault {
        historyCache := Some(h);
        return Ok(());
      }
      return Err(fault);
    }

    /** `getDirective(conversationId)`: `null` when the conversation has no current directive. */
    method GetDirective(c: string) returns (r: Option<Directive>)
      ensures c in CurrentDirectives() ==> r == Some(CurrentDirectives()[c])
      ensures c !in CurrentDirectives() ==> r == None
    {
      var directives := LoadDirectives();
      if c in directives {
        return Some(directives[c]);
      }
      return None;
    }

    /**
     * `saveDirective(conversationId, systemPrompt, personality, memoryPolicy)`. A directive that
     * is replaced first goes to the history, which is saved before the new directive is written:
     * a failed history save stops the operation with `directives.json` untouched.
     */
    method SaveDirective(c: string, systemPrompt: string, personality: Option<string>, memoryPolicy: Option<string>,
                         now: nat, historyFault: SaveFault, fault: SaveFault)
      returns (r: Result<Directive, SaveFault>)
      requires Valid()
      modifies this
      // no current directive: the history is loaded but neither changed nor saved
      ensures var cur := old(CurrentDirectives());
        c !in cur ==> historyCache == Some(old(CurrentHistory())) && historyFiles == old(historyFiles)
      // a current directive: it is pushed onto the (cached) history, which is saved first
      ensures var cur := old(CurrentDirectives());
        c in cur ==>
          var h := WithPrior(old(CurrentHistory()), c, cur[c]);
          && historyCache == Some(h)
          && historyFiles == AfterAtomicSave(old(historyFiles), historyPath, historyPath + ".tmp", h, historyFault)
      // a failed history save: nothing else happens
      ensures c in old(CurrentDirectives()) && historyFault != NoFault ==>
        r == Err(historyFault) && files == old(files) && cache == old(cache)
      // otherwise the new directive is written as the conversation's current one
      ensures c !in old(CurrentDirectives()) || historyFault == NoFault ==>
        var d := Directive(c, systemPrompt, personality, memoryPolicy, now);
        var after := old(CurrentDirectives())[c := d];
        && At(files, storePath) == (if fault == NoFault then Value(after) else At(old(files), storePath))
        && At(files, tempPath) == Missing && SameElsewhere(files, old(files), storePath, tempPath)
        && cache == (if fault == NoFault then after else old(cache))
        && r == (if fault == NoFault then Ok(d) else Err(fault))
    {
      var directives := LoadDirectives();
      var history := LoadHistory();
      var directive := Directive(c, systemPrompt, personality, memoryPolicy, now);
      if c in directives {
        history := WithPrior(history, c, directives[c]);
        historyCache := Some(history);
        var savedHistory := SaveHistory(history, historyFault);
        if savedHistory.Err? {
          return Err(savedHistory.error);
        }
      }
      directives := directives[c := directive];
      var saved := SaveDirectives(directives, fault);
      if saved.Err? {
        return Err(saved.error);
      }
      return Ok(directive);
    }

    /** `getDirectiveHistory(conversationId)`: oldest first, `[]` when there is none. */
    method GetDirectiveHistory(c: string) returns (ds: seq<Directive>)
      modifies this
      ensures ds == HistoryOf(old(CurrentHistory()), c)
      ensures historyCache == Some(old(CurrentHistory()))
      ensures files == old(files) && historyFiles == old(historyFiles) && cache == old(cache)
    {
      var history := LoadHistory();
      ds := HistoryOf(history, c);
    }

    /** `deleteDirective(conversationId)`: removes only the current directive; history stays. */
    method DeleteDirective(c: string, fault: SaveFault) returns (r: Result<bool, SaveFault>)
      requires Valid()
      modifies this
      ensures c !in old(CurrentDirectives()) ==> r == Ok(false) && files == old(files) && cache == old(cache)
      ensures c in old(CurrentDirectives()) ==>
        var after := old(CurrentDirectives()) - {c};
        && At(files, storePath) == (if fault == NoFault then Value(after) else At(old(files), storePath))
        && At(files, tempPath) == Missing && SameElsewhere(files, old(files), storePath, tempPath)
        && cache == (if fault == NoFault then after else old(cache))
        && r == (if fault == NoFault then Ok(true) else Err(fault))
      ensures historyCache == old(historyCache) && historyFiles == old(historyFiles)
    {
      var directives := LoadDirectives();
      if c !in directives {
        return Ok(false);
      }
      directives := directives - {c};
      var saved := SaveDirectives(directives, fault);
      if saved.Err? {
        return Err(saved.error);
      }
      return Ok(true);
    }

    /** `getPresets()`: walks the conversations and their histories in order, keeping the first directive per key. */
    method GetPresets() returns (presets: seq<Directive>)
      modifies this
      ensures presets == Presets(old(CurrentHistory()))
      ensures historyCache == Some(old(CurrentHistory()))
      ensures files == old(files) && historyFiles == old(historyFiles) && cache == old(cache)
    {
      var history := LoadHistory();
      presets := CollectPresets(Values(history), PresetKey);
    }

    /** `clearCache()`: the next history load reads the file again. */
    method ClearCache()
      modifies this
      ensures cache == map[] && historyCache == None
      ensures files == old(files) && historyFiles == old(historyFiles)
      ensures CurrentHistory() == ValueOr(At(historyFiles, historyPath), [])
    {
      cache := map[];
      historyCache := None;
    }
  }
}
