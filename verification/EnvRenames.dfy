/**
 The rules of the environment-variable migration (scripts/migrate_baldur_env_vars.py), and
 the proof that they are fit for it: no rule matches what a rule has written.

 Every rule renames a variable name, or a prefix of one, that is made of upper-case words
 with a separator behind each. Rules are written down by their words here.
 */
module EnvRenames {
  import opened EnvMigration

  const WORDS: nat := 85

  /** A word of the rules, by its place in the list below. */
  type Word = n: nat | n < WORDS

  const CB: Word := 0 const ML: Word := 1 const ADV: Word := 2 const API: Word := 3 const ARQ: Word := 4
  const BUS: Word := 5 const DLQ: Word := 6 const GOV: Word := 7 const KEY: Word := 8 const LOG: Word := 9
  const SLA: Word := 10 const AUTO: Word := 11 const META: Word := 12 const RATE: Word := 13
  const TASK: Word := 14 const APPLY: Word := 15 const BLAST: Word := 16 const CACHE: Word := 17
  const COORD: Word := 18 const DRIFT: Word := 19 const EVENT: Word := 20 const GUARD: Word := 21
  const LIMIT: Word := 22 const LEVEL: Word := 23 const REDIS: Word := 24 const STATE: Word := 25
  const SLACK: Word := 26 const BOUNDS: Word := 27 const CANARY: Word := 28 const CELERY: Word := 29
  const CONFIG: Word := 30 const ENGINE: Word := 31 const LEADER: Word := 32 const MODELS: Word := 33
  const POLICY: Word := 34 const RADIUS: Word := 35 const REPLAY: Word := 36 const SHADOW: Word := 37
  const SAFETY: Word := 38 const SECRET: Word := 39 const SYSTEM: Word := 40 const THREAD: Word := 41
  const TUNING: Word := 42 const WEIGHT: Word := 43 const CHANNEL: Word := 44 const CONTROL: Word := 45
  const ENABLED: Word := 46 const JOURNAL: Word := 47 const LOGGING: Word := 48 const MONITOR: Word := 49
  const RUNTIME: Word := 50 const SECONDS: Word := 51 const SECRETS: Word := 52 const ADVANCED: Word := 53
  const ANALYSIS: Word := 54 const DECISION: Word := 55 const ELECTION: Word := 56 const EVENTBUS: Word := 57
  const FEEDBACK: Word := 58 const INTERVAL: Word := 59 const LEARNING: Word := 60 const ROLLBACK: Word := 61
  const REGIONAL: Word := 62 const RESOURCE: Word := 63 const RECOVERY: Word := 64 const SHUTDOWN: Word := 65
  const SETTINGS: Word := 66 const STRATEGY: Word := 67 const TOPOLOGY: Word := 68 const TEMPORAL: Word := 69
  const THROTTLE: Word := 70 const WATCHDOG: Word := 71 const DETECTION: Word := 72 const THRESHOLD: Word := 73
  const AUTOMATION: Word := 74 const FORECASTER: Word := 75 const GOVERNANCE: Word := 76
  const HISTORICAL: Word := 77 const MANAGEMENT: Word := 78 const PREDICTIVE: Word := 79
  const POSTMORTEM: Word := 80 const COORDINATOR: Word := 81 const CORRELATION: Word := 82
  const INTEGRATION: Word := 83 const PERSISTENCE: Word := 84

  function Spell(w: Word): string {
    match w
    case 0 => "CB"
    case 1 => "ML"
    case 2 => "ADV"
    case 3 => "API"
    case 4 => "ARQ"
    case 5 => "BUS"
    case 6 => "DLQ"
    case 7 => "GOV"
    case 8 => "KEY"
    case 9 => "LOG"
    case 10 => "SLA"
    case 11 => "AUTO"
    case 12 => "META"
    case 13 => "RATE"
    case 14 => "TASK"
    case 15 => "APPLY"
    case 16 => "BLAST"
    case 17 => "CACHE"
    case 18 => "COORD"
    case 19 => "DRIFT"
    case 20 => "EVENT"
    case 21 => "GUARD"
    case 22 => "LIMIT"
    case 23 => "LEVEL"
    case 24 => "REDIS"
    case 25 => "STATE"
    case 26 => "SLACK"
    case 27 => "BOUNDS"
    case 28 => "CANARY"
    case 29 => "CELERY"
    case 30 => "CONFIG"
    case 31 => "ENGINE"
    case 32 => "LEADER"
    case 33 => "MODELS"
    case 34 => "POLICY"
    case 35 => "RADIUS"
    case 36 => "REPLAY"
    case 37 => "SHADOW"
    case 38 => "SAFETY"
    case 39 => "SECRET"
    case 40 => "SYSTEM"
    case 41 => "THREAD"
    case 42 => "TUNING"
    case 43 => "WEIGHT"
    case 44 => "CHANNEL"
    case 45 => "CONTROL"
    case 46 => "ENABLED"
    case 47 => "JOURNAL"
    case 48 => "LOGGING"
    case 49 => "MONITOR"
    case 50 => "RUNTIME"
    case 51 => "SECONDS"
    case 52 => "SECRETS"
    case 53 => "ADVANCED"
    case 54 => "ANALYSIS"
    case 55 => "DECISION"
    case 56 => "ELECTION"
    case 57 => "EVENTBUS"
    case 58 => "FEEDBACK"
    case 59 => "INTERVAL"
    case 60 => "LEARNING"
    case 61 => "ROLLBACK"
    case 62 => "REGIONAL"
    case 63 => "RESOURCE"
    case 64 => "RECOVERY"
    case 65 => "SHUTDOWN"
    case 66 => "SETTINGS"
    case 67 => "STRATEGY"
    case 68 => "TOPOLOGY"
    case 69 => "TEMPORAL"
    case 70 => "THROTTLE"
    case 71 => "WATCHDOG"
    case 72 => "DETECTION"
    case 73 => "THRESHOLD"
    case 74 => "AUTOMATION"
    case 75 => "FORECASTER"
    case 76 => "GOVERNANCE"
    case 77 => "HISTORICAL"
    case 78 => "MANAGEMENT"
    case 79 => "PREDICTIVE"
    case 80 => "POSTMORTEM"
    case 81 => "COORDINATOR"
    case 82 => "CORRELATION"
    case 83 => "INTEGRATION"
    case _ => "PERSISTENCE"
  }

  predicate Letter(c: char) {
    'A' <= c <= 'Z'
  }

  ghost predicate IsWord(s: string) {
    |s| >= 2 && forall k | 0 <= k < |s| :: Letter(s[k])
  }

  /** The order of the list: by length, then by first, middle and last letter. */
  predicate Before(s: string, t: string)
    requires |s| >= 2 && |t| >= 2
  {
    var m, n := |s| / 2, |t| / 2;
    || |s| < |t|
    || (|s| == |t| && s[0] < t[0])
    || (|s| == |t| && s[0] == t[0] && s[m] < t[n])
    || (|s| == |t| && s[0] == t[0] && s[m] == t[n] && s[|s| - 1] < t[|t| - 1])
  }

  /** A word, and one that comes before the next in the list. */
  ghost predicate WellListed(spell: Word -> string, n: Word) {
    IsWord(spell(n)) && (n + 1 < WORDS ==> |spell(n + 1)| >= 2 && Before(spell(n), spell(n + 1)))
  }

  ghost predicate Listed(n: nat)
    requires n < WORDS
  {
    IsWord(Spell(n)) && (n + 1 < WORDS ==> |Spell(n + 1)| >= 2 && Before(Spell(n), Spell(n + 1)))
  }

  lemma Listed0To7(n: nat)
    requires n < 8
    ensures Listed(n)
  {
  }

  lemma Listed8To15(n: nat)
    requires 8 <= n < 16
    ensures Listed(n)
  {
  }

  lemma Listed16To23(n: nat)
    requires 16 <= n < 24
    ensures Listed(n)
  {
  }

  lemma Listed24To31(n: nat)
    requires 24 <= n < 32
    ensures Listed(n)
  {
  }

  lemma Listed32To39(n: nat)
    requires 32 <= n < 40
    ensures Listed(n)
  {
  }

  lemma Listed40To47(n: nat)
    requires 40 <= n < 48
    ensures Listed(n)
  {
  }

  lemma Listed48To55(n: nat)
    requires 48 <= n < 56
    ensures Listed(n)
  {
  }

  lemma Listed56To63(n: nat)
    requires 56 <= n < 64
    ensures Listed(n)
  {
  }

  lemma Listed64To71(n: nat)
    requires 64 <= n < 72
    ensures Listed(n)
  {
  }

  lemma Listed72To79(n: nat)
    requires 72 <= n < 80
    ensures Listed(n)
  {
  }

  lemma Listed80To84(n: nat)
    requires 80 <= n < WORDS
    ensures Listed(n)
  {
  }

  lemma AllListed(n: nat)
    requires n < WORDS
    ensures Listed(n)
  {
    if n < 8 {
      Listed0To7(n);
    } else if n < 16 {
      Listed8To15(n);
    } else if n < 24 {
      Listed16To23(n);
    } else if n < 32 {
      Listed24To31(n);
    } else if n < 40 {
      Listed32To39(n);
    } else if n < 48 {
      Listed40To47(n);
    } else if n < 56 {
      Listed48To55(n);
    } else if n < 64 {
      Listed56To63(n);
    } else if n < 72 {
      Listed64To71(n);
    } else if n < 80 {
      Listed72To79(n);
    } else {
      Listed80To84(n);
    }
  }

  lemma BeforeThen(s: string, t: string, u: string)
    requires |s| >= 2 && |t| >= 2 && |u| >= 2 && Before(s, t) && Before(t, u)
    ensures Before(s, u)
  {
  }

  lemma {:induction false} ListedInOrder(spell: Word -> string, v: Word, w: Word)
    requires v < w && forall n: Word :: WellListed(spell, n)
    ensures |spell(v)| >= 2 && |spell(w)| >= 2 && Before(spell(v), spell(w))
    decreases w
  {
    assert WellListed(spell, v) && WellListed(spell, w - 1) && WellListed(spell, w);
    if v + 1 < w {
      ListedInOrder(spell, v, w - 1);
      BeforeThen(spell(v), spell(w - 1), spell(w));
    }
  }

  /** A spelling of the words in upper-case letters, no two alike. */
  ghost predicate Lexicon(spell: Word -> string) {
    (forall w: Word :: IsWord(spell(w))) && (forall v: Word, w: Word | v != w :: spell(v) != spell(w))
  }

  lemma ListIsLexicon(spell: Word -> string)
    requires forall n: Word :: WellListed(spell, n)
    ensures Lexicon(spell)
  {
    forall w: Word ensures IsWord(spell(w)) {
      assert WellListed(spell, w);
    }
    forall v: Word, w: Word | v != w ensures spell(v) != spell(w) {
      ListedInOrder(spell, if v < w then v else w, if v < w then w else v);
    }
  }

  lemma SpellLexicon()
    ensures Lexicon(Spell)
  {
    forall n: Word ensures WellListed(Spell, n) {
      AllListed(n);
    }
    ListIsLexicon(Spell);
  }

  // ---------------------------------------------------------------------------
  // The rules
  // ---------------------------------------------------------------------------

  /** The words with an underscore behind each, or an equals sign behind the last. */
  function Name(spell: Word -> string, ws: seq<Word>, exact: bool): string {
    if ws == [] then "" else spell(ws[0]) + [Separator(|ws| == 1 && exact)] + Name(spell, ws[1..], exact)
  }

  function Separator(equals: bool): char {
    if equals then '=' else '_'
  }

  /** What a negative lookahead forbids right behind the stem. */
  datatype Lookahead = WordAhead(word: Word) | LetterAhead(letter: char)

  function Ahead(spell: Word -> string, u: Lookahead): string {
    match u
    case WordAhead(word) => Name(spell, [word], false)
    case LetterAhead(letter) => [letter]
  }

  /** An exact rule renames one whole variable, the others every variable that begins with the stem. */
  datatype WordRule = WordRule(stem: seq<Word>, exact: bool, unless: seq<Lookahead>, target: seq<Word>)

  function Exact(stem: seq<Word>, target: seq<Word>): WordRule {
    WordRule(stem, true, [], target)
  }

  function Prefix(stem: seq<Word>, unless: seq<Lookahead>, target: seq<Word>): WordRule {
    WordRule(stem, false, unless, target)
  }

  const RULES: nat := 44

  function Rule(i: nat): WordRule
    requires i < RULES
  {
    match i
    case 0 => Exact([DLQ, LOG, LEVEL], [EVENT, LOGGING, DLQ, LOG, LEVEL])
    case 1 => Exact([CB, LOG, LEVEL], [EVENT, LOGGING, CB, LOG, LEVEL])
    case 2 => Exact([REPLAY, LOG, LEVEL], [EVENT, LOGGING, REPLAY, LOG, LEVEL])
    case 3 => Exact([SLA, LOG, LEVEL], [EVENT, LOGGING, SLA, LOG, LEVEL])
    case 4 => Prefix([CANARY, GOV], [], [CANARY, GOVERNANCE])
    case 5 => Prefix([RECOVERY, COORD], [], [RECOVERY, COORDINATOR])
    case 6 => Prefix([RATE, LIMIT, THROTTLE], [WordAhead(INTEGRATION)], [RATE, LIMIT, THROTTLE, INTEGRATION])
    case 7 => Prefix([REGIONAL, RECOVERY], [WordAhead(POLICY)], [REGIONAL, RECOVERY, POLICY])
    case 8 => Prefix([REDIS, GUARD], [], [REDIS, KEY, GUARD])
    case 9 => Prefix([CB, ADV], [], [CB, ADVANCED])
    case 10 => Prefix([API, RATE], [WordAhead(LIMIT)], [API, RATE, LIMIT])
    case 11 => Prefix([EVENTBUS], [], [EVENT, BUS])
    case 12 => Prefix([SHUTDOWN], [], [RECOVERY, SHUTDOWN])
    case 13 => Prefix([FORECASTER], [], [PREDICTIVE, FORECASTER])
    case 14 => Prefix([ROLLBACK], [], [AUTO, ROLLBACK])
    case 15 => Prefix([DECISION], [WordAhead(ENGINE)], [DECISION, ENGINE])
    case 16 => Prefix([RESOURCE], [WordAhead(MONITOR), WordAhead(GUARD)], [RESOURCE, MONITOR])
    case 17 => Prefix([LOGGING], [WordAhead(SETTINGS)], [LOGGING, SETTINGS])
    case 18 => Prefix([RUNTIME], [WordAhead(FEEDBACK)], [RUNTIME, FEEDBACK])
    case 19 => Prefix([JOURNAL], [], [EVENT, JOURNAL])
    case 20 => Prefix([REPLAY], [WordAhead(AUTOMATION)], [REPLAY, AUTOMATION])
    case 21 => Prefix([CELERY], [WordAhead(TASK)], [CELERY, TASK])
    case 22 => Prefix([SECRET], [LetterAhead('S')], [SECRETS])
    case 23 => Prefix([BOUNDS], [], [SAFETY, BOUNDS])
    case 24 => Prefix([SHADOW], [], [CONFIG, SHADOW])
    case 25 => Prefix([LEADER], [WordAhead(ELECTION)], [LEADER, ELECTION])
    case 26 => Prefix([THREAD], [WordAhead(MANAGEMENT)], [THREAD, MANAGEMENT])
    case 27 => Prefix([DRIFT], [WordAhead(THRESHOLD), WordAhead(DETECTION)], [DRIFT, THRESHOLD])
    case 28 => Prefix([STATE], [WordAhead(CACHE)], [SYSTEM, CONTROL])
    case 29 => Prefix([APPLY], [WordAhead(STRATEGY)], [APPLY, STRATEGY])
    case 30 => Prefix([SLACK], [WordAhead(CHANNEL)], [SLACK, CHANNEL])
    case 31 => Prefix([ARQ], [WordAhead(TASK)], [ARQ, TASK])
    case 32 => Prefix([AUTO], [WordAhead(CONFIG), WordAhead(TUNING), WordAhead(ROLLBACK)], [AUTO, CONFIG])
    case 33 => Prefix([ML], [WordAhead(MODELS)], [ML, MODELS])
    case 34 => Prefix([META], [WordAhead(WATCHDOG)], [META, WATCHDOG])
    case 35 => Exact([CORRELATION, ENABLED], [CORRELATION, ENGINE, ENABLED])
    case 36 => Exact([CORRELATION, ANALYSIS, INTERVAL, SECONDS], [CORRELATION, ENGINE, ANALYSIS, INTERVAL, SECONDS])
    case 37 => Exact([CORRELATION, WEIGHT, TOPOLOGY], [CORRELATION, ENGINE, WEIGHT, TOPOLOGY])
    case 38 => Exact([CORRELATION, WEIGHT, TEMPORAL], [CORRELATION, ENGINE, WEIGHT, TEMPORAL])
    case 39 => Exact([CORRELATION, WEIGHT, BLAST, RADIUS], [CORRELATION, ENGINE, WEIGHT, BLAST, RADIUS])
    case 40 => Exact([CORRELATION, WEIGHT, HISTORICAL], [CORRELATION, ENGINE, WEIGHT, HISTORICAL])
    case 41 => Exact([CORRELATION, LEARNING, INTEGRATION, ENABLED],
                     [CORRELATION, ENGINE, LEARNING, INTEGRATION, ENABLED])
    case 42 => Exact([CORRELATION, POSTMORTEM, INTEGRATION, ENABLED],
                     [CORRELATION, ENGINE, POSTMORTEM, INTEGRATION, ENABLED])
    case _ => Exact([CORRELATION, STATE, PERSISTENCE, ENABLED], [CORRELATION, ENGINE, STATE, PERSISTENCE, ENABLED])
  }

  const HEAD := "BALDUR_"

  function Written(spell: Word -> string, r: WordRule): Rename {
    Rename(HEAD + Name(spell, r.stem, r.exact),
           seq(|r.unless|, k requires 0 <= k < |r.unless| => Ahead(spell, r.unless[k])),
           HEAD + Name(spell, r.target, r.exact))
  }

  function Renames(): (rules: seq<Rename>)
    ensures |rules| == RULES
  {
    seq(RULES, i requires 0 <= i < RULES => Written(Spell, Rule(i)))
  }

  // ---------------------------------------------------------------------------
  // Names that cannot begin alike
  // ---------------------------------------------------------------------------

  /** Words with a separator behind each that begin alike are the same word. */
  lemma WordsAlike(w: string, a: char, x: string, v: string, b: char, y: string)
    requires IsWord(w) && IsWord(v) && !Letter(a) && !Letter(b)
    requires w + [a] + x <= v + [b] + y
    ensures w == v
  {
    var s, t := w + [a] + x, v + [b] + y;
    assert forall k | 0 <= k < |w| :: s[k] == w[k] == t[k];
    assert forall k | 0 <= k < |v| :: t[k] == v[k];
    assert s[|w|] == t[|w|] == a && t[|v|] == b;
    assert |v| <= |w|;
    assert s[|v|] == b;
  }

  ghost predicate DifferAt(ws: seq<Word>, vs: seq<Word>, d: nat) {
    d < |ws| && d < |vs| && ws[..d] == vs[..d] && ws[d] != vs[d]
  }

  lemma PrefixBehind(head: string, s: string, t: string)
    ensures head + s <= head + t <==> s <= t
  {
    if head + s <= head + t {
      assert (head + s)[|head|..] == s && (head + t)[|head|..] == t;
    }
  }

  lemma {:induction false} NamesApart(spell: Word -> string, ws: seq<Word>, e: bool, vs: seq<Word>, f: bool,
                                      d: nat, y: string)
    requires Lexicon(spell) && DifferAt(ws, vs, d)
    ensures !(Name(spell, ws, e) <= Name(spell, vs, f) + y)
    decreases d
  {
    var a, b := Separator(|ws| == 1 && e), Separator(|vs| == 1 && f);
    var s, t := Name(spell, ws[1..], e), Name(spell, vs[1..], f) + y;
    assert Name(spell, vs, f) + y == spell(vs[0]) + [b] + t;
    if d == 0 {
      if spell(ws[0]) + [a] + s <= spell(vs[0]) + [b] + t {
        WordsAlike(spell(ws[0]), a, s, spell(vs[0]), b, t);
      }
    } else {
      assert ws[0] == ws[..d][0] == vs[0];
      assert ws[1..][..d - 1] == ws[..d][1..] == vs[1..][..d - 1];
      NamesApart(spell, ws[1..], e, vs[1..], f, d - 1, y);
      PrefixBehind(spell(ws[0]) + [a], s, t);
    }
  }

  /** The target goes on from the stem with a word the rule excludes. */
  ghost predicate Shields(r: WordRule, vs: seq<Word>) {
    !r.exact && |r.stem| < |vs| && vs[..|r.stem|] == r.stem && WordAhead(vs[|r.stem|]) in r.unless
  }

  lemma {:induction false} NameConcat(spell: Word -> string, ws: seq<Word>, vs: seq<Word>)
    ensures Name(spell, ws + vs, false) == Name(spell, ws, false) + Name(spell, vs, false)
    decreases |ws|
  {
    if ws == [] {
      assert ws + vs == vs;
    } else {
      assert (ws + vs)[1..] == ws[1..] + vs;
      NameConcat(spell, ws[1..], vs);
    }
  }

  lemma NameSplits(spell: Word -> string, ws: seq<Word>, w: Word, tail: seq<Word>)
    ensures Name(spell, ws + [w] + tail, false) ==
            Name(spell, ws, false) + Name(spell, [w], false) + Name(spell, tail, false)
  {
    NameConcat(spell, ws + [w], tail);
    NameConcat(spell, ws, [w]);
  }

  lemma BehindPrefix(a: string, b: string, rest: string)
    ensures a <= a + b + rest && (a + b + rest)[|a|..] == b + rest
  {
    assert a + b + rest == a + (b + rest);
  }

  lemma ShieldBlocks(spell: Word -> string, r: WordRule, vs: seq<Word>, rest: string)
    requires Shields(r, vs)
    ensures var stem, line := HEAD + Name(spell, r.stem, false), HEAD + Name(spell, vs, false) + rest;
            stem <= line && Blocked(Written(spell, r).unless, line[|stem|..])
  {
    var w, tail := vs[|r.stem|], vs[|r.stem| + 1..];
    assert vs == r.stem + [w] + tail;
    NameSplits(spell, r.stem, w, tail);
    var stem, next := HEAD + Name(spell, r.stem, false), Name(spell, [w], false);
    var behind := Name(spell, tail, false) + rest;
    assert HEAD + Name(spell, vs, false) + rest == stem + next + behind;
    BehindPrefix(stem, next, behind);
    var k :| 0 <= k < |r.unless| && r.unless[k] == WordAhead(w);
    assert Written(spell, r).unless[k] == next <= next + behind;
  }

  /** The rule cannot match behind the other's target: a word differs, or the lookahead stops it. */
  ghost predicate Settles(r: WordRule, q: WordRule) {
    DifferAt(r.stem, q.target, 0) || DifferAt(r.stem, q.target, 1) || (!q.exact && Shields(r, q.target))
  }

  lemma SettledIsInert(spell: Word -> string, r: WordRule, q: WordRule)
    requires Lexicon(spell) && Settles(r, q)
    ensures Inert(Written(spell, r), Written(spell, q))
  {
    forall rest ensures !Matches(Written(spell, r), Written(spell, q).target + rest) {
      SettledNeverMatches(spell, r, q, rest);
    }
  }

  lemma SettledNeverMatches(spell: Word -> string, r: WordRule, q: WordRule, rest: string)
    requires Lexicon(spell) && Settles(r, q)
    ensures !Matches(Written(spell, r), Written(spell, q).target + rest)
  {
    var stem, target := Name(spell, r.stem, r.exact), Name(spell, q.target, q.exact);
    assert HEAD + target + rest == HEAD + (target + rest);
    PrefixBehind(HEAD, stem, target + rest);
    if DifferAt(r.stem, q.target, 0) {
      NamesApart(spell, r.stem, r.exact, q.target, q.exact, 0, rest);
    } else if DifferAt(r.stem, q.target, 1) {
      NamesApart(spell, r.stem, r.exact, q.target, q.exact, 1, rest);
    } else {
      ShieldBlocks(spell, r, q.target, rest);
    }
  }

  // ---------------------------------------------------------------------------
  // All pairs of rules
  // ---------------------------------------------------------------------------

  ghost predicate Settled(i: nat, j: nat)
    requires i < RULES && j < RULES
  {
    Settles(Rule(i), Rule(j))
  }

  /** The rules whose stem begins with a word. */
  predicate StemBegins(i: nat, head: Word) {
    match head
    case 0 => i == 1 || i == 9  // CB
    case 1 => i == 33  // ML
    case 3 => i == 10  // API
    case 4 => i == 31  // ARQ
    case 6 => i == 0  // DLQ
    case 10 => i == 3  // SLA
    case 11 => i == 32  // AUTO
    case 12 => i == 34  // META
    case 13 => i == 6  // RATE
    case 15 => i == 29  // APPLY
    case 19 => i == 27  // DRIFT
    case 24 => i == 8  // REDIS
    case 25 => i == 28  // STATE
    case 26 => i == 30  // SLACK
    case 27 => i == 23  // BOUNDS
    case 28 => i == 4  // CANARY
    case 29 => i == 21  // CELERY
    case 32 => i == 25  // LEADER
    case 36 => i == 2 || i == 20  // REPLAY
    case 37 => i == 24  // SHADOW
    case 39 => i == 22  // SECRET
    case 41 => i == 26  // THREAD
    case 47 => i == 19  // JOURNAL
    case 48 => i == 17  // LOGGING
    case 50 => i == 18  // RUNTIME
    case 55 => i == 15  // DECISION
    case 57 => i == 11  // EVENTBUS
    case 61 => i == 14  // ROLLBACK
    case 62 => i == 7  // REGIONAL
    case 63 => i == 16  // RESOURCE
    case 64 => i == 5  // RECOVERY
    case 65 => i == 12  // SHUTDOWN
    case 75 => i == 13  // FORECASTER
    case 82 => i >= 35  // CORRELATION
    case _ => false
  }

  lemma CorrelationStems(i: nat)
    requires 35 <= i < RULES
    ensures |Rule(i).stem| >= 2 && Rule(i).stem[0] == CORRELATION && Rule(i).stem[1] != ENGINE
  {
  }

  lemma StemHeads(i: nat)
    requires i < RULES
    ensures |Rule(i).stem| > 0 && StemBegins(i, Rule(i).stem[0])
  {
  }

  lemma Settled0To6(i: nat, j: nat)
    requires i < RULES && j < 7
    ensures Settled(i, j)
  {
    StemHeads(i);
  }

  lemma Settled7To13(i: nat, j: nat)
    requires i < RULES && 7 <= j < 14
    ensures Settled(i, j)
  {
    StemHeads(i);
  }

  lemma Settled14To20(i: nat, j: nat)
    requires i < RULES && 14 <= j < 21
    ensures Settled(i, j)
  {
    StemHeads(i);
  }

  lemma Settled21To27(i: nat, j: nat)
    requires i < RULES && 21 <= j < 28
    ensures Settled(i, j)
  {
    StemHeads(i);
  }

  lemma Settled28To34(i: nat, j: nat)
    requires i < RULES && 28 <= j < 35
    ensures Settled(i, j)
  {
    StemHeads(i);
  }

  lemma CorrelationTargets(j: nat)
    requires 35 <= j < RULES
    ensures |Rule(j).target| >= 2 && Rule(j).target[0] == CORRELATION && Rule(j).target[1] == ENGINE
  {
  }

  /** The fields of the correlation engine: no old name goes on with ENGINE. */
  lemma SettledCorrelation(i: nat, j: nat)
    requires i < RULES && 35 <= j < RULES
    ensures Settled(i, j)
  {
    CorrelationTargets(j);
    StemHeads(i);
    if i >= 35 {
      CorrelationStems(i);
      assert DifferAt(Rule(i).stem, Rule(j).target, 1);
    } else {
      assert DifferAt(Rule(i).stem, Rule(j).target, 0);
    }
  }

  lemma AllSettled(i: nat, j: nat)
    requires i < RULES && j < RULES
    ensures Settled(i, j)
  {
    if j < 7 {
      Settled0To6(i, j);
    } else if j < 14 {
      Settled7To13(i, j);
    } else if j < 21 {
      Settled14To20(i, j);
    } else if j < 28 {
      Settled21To27(i, j);
    } else if j < 35 {
      Settled28To34(i, j);
    } else {
      SettledCorrelation(i, j);
    }
  }

  // ---------------------------------------------------------------------------
  // How the new names come from the old
  // ---------------------------------------------------------------------------

  /** The log levels move under event logging, name and all. */
  lemma LogLevelsMove(i: nat)
    requires i < 4
    ensures Rule(i).exact && Rule(i).stem[1..] == [LOG, LEVEL] && Rule(i).target == [EVENT, LOGGING] + Rule(i).stem
    ensures Rule(0).stem[0] == DLQ && Rule(1).stem[0] == CB && Rule(2).stem[0] == REPLAY && Rule(3).stem[0] == SLA
  {
  }

  /** The fields of the correlation engine move under its own prefix. */
  lemma FieldsMove(i: nat)
    requires 35 <= i < RULES
    ensures Rule(i).exact && Rule(i).stem[0] == CORRELATION && Rule(i).target == [CORRELATION, ENGINE] + Rule(i).stem[1..]
  {
  }

  /** A prefix that gets one more word is left alone where that word already follows. */
  lemma PrefixesGrow(i: nat)
    requires i in {6, 7, 10, 15, 16, 17, 18, 20, 21, 25, 26, 27, 29, 30, 31, 32, 33, 34}
    ensures !Rule(i).exact && Rule(i).unless != [] && Rule(i).unless[0].WordAhead?
    ensures Rule(i).target == Rule(i).stem + [Rule(i).unless[0].word]
  {
  }

  /** A prefix that is put under a wider scope keeps its own words behind it. */
  lemma PrefixesNest(i: nat)
    requires i in {12, 13, 14, 19, 23, 24}
    ensures !Rule(i).exact && Rule(i).unless == [] && |Rule(i).target| == |Rule(i).stem| + 1
    ensures Rule(i).target[1..] == Rule(i).stem
    ensures Rule(12).target[0] == RECOVERY && Rule(13).target[0] == PREDICTIVE && Rule(14).target[0] == AUTO
    ensures Rule(19).target[0] == EVENT && Rule(23).target[0] == SAFETY && Rule(24).target[0] == CONFIG
  {
  }

  /** The others are respelled one by one. */
  lemma PrefixesRespelled()
    ensures Rule(4) == Prefix([CANARY, GOV], [], [CANARY, GOVERNANCE])
    ensures Rule(5) == Prefix([RECOVERY, COORD], [], [RECOVERY, COORDINATOR])
    ensures Rule(8) == Prefix([REDIS, GUARD], [], [REDIS, KEY, GUARD])
    ensures Rule(9) == Prefix([CB, ADV], [], [CB, ADVANCED])
    ensures Rule(11) == Prefix([EVENTBUS], [], [EVENT, BUS])
    ensures Rule(22) == Prefix([SECRET], [LetterAhead('S')], [SECRETS])
    ensures Rule(28) == Prefix([STATE], [WordAhead(CACHE)], [SYSTEM, CONTROL])
  {
  }

  // ---------------------------------------------------------------------------
  // Names are keys
  // ---------------------------------------------------------------------------

  lemma {:induction false} NameIsKey(spell: Word -> string, ws: seq<Word>, exact: bool)
    requires Lexicon(spell) && ws != []
    ensures var name := Name(spell, ws, exact); IsKey(name) && name[|name| - 1] == Separator(exact)
    decreases |ws|
  {
    assert IsWord(spell(ws[0]));
    if |ws| > 1 {
      NameIsKey(spell, ws[1..], exact);
    } else {
      assert Name(spell, ws[1..], exact) == "";
    }
  }

  lemma KeyBehindHead(name: string)
    requires IsKey(name)
    ensures IsKey(HEAD + name) && (HEAD + name)[|HEAD + name| - 1] == name[|name| - 1] && (HEAD + name)[0] == 'B'
  {
    assert forall k | 0 <= k < |HEAD| :: Letter(HEAD[k]) || HEAD[k] == '_';
  }

  lemma WrittenRenamesKey(spell: Word -> string, r: WordRule)
    requires Lexicon(spell) && r.stem != [] && r.target != []
    ensures RenamesKey(Written(spell, r))
  {
    NameIsKey(spell, r.stem, r.exact);
    NameIsKey(spell, r.target, r.exact);
    KeyBehindHead(Name(spell, r.stem, r.exact));
    KeyBehindHead(Name(spell, r.target, r.exact));
  }

  lemma RulesHaveWords(i: nat)
    requires i < RULES
    ensures Rule(i).stem != [] && Rule(i).target != []
  {
  }

  /** The rules of the script reach a normal form in one pass and keep the values. */
  lemma RenamesFit()
    ensures Normalizing(Renames()) && RenameKeys(Renames())
  {
    SpellLexicon();
    forall i, j | 0 <= i < RULES && 0 <= j < RULES ensures Inert(Renames()[i], Renames()[j]) {
      AllSettled(i, j);
      SettledIsInert(Spell, Rule(i), Rule(j));
    }
    forall i | 0 <= i < RULES ensures RenamesKey(Renames()[i]) {
      RulesHaveWords(i);
      WrittenRenamesKey(Spell, Rule(i));
    }
  }

  // ---------------------------------------------------------------------------
  // Variables that are left alone
  // ---------------------------------------------------------------------------

  lemma {:induction false} UntouchedFrom(line: string, i: nat)
    requires i <= RULES && forall k | i <= k < RULES :: !Matches(Renames()[k], line)
    ensures RewriteFrom(Renames(), i, line) == line
    decreases RULES - i
  {
    if i < RULES {
      UntouchedFrom(line, i + 1);
    }
  }

  /** The rules leave alone every variable whose first word begins none of their stems. */
  lemma OtherVariablesUntouched(w: string, a: char, rest: string)
    requires IsWord(w) && !Letter(a) && forall i | 0 <= i < RULES :: Rule(i).stem != [] ==> Spell(Rule(i).stem[0]) != w
    ensures Rewrite(Renames(), HEAD + (w + [a] + rest)) == HEAD + (w + [a] + rest)
  {
    var line := HEAD + (w + [a] + rest);
    SpellLexicon();
    forall i | 0 <= i < RULES ensures !Matches(Renames()[i], line) {
      RulesHaveWords(i);
      OtherWord(Spell, Rule(i), w, a, rest);
    }
    UntouchedFrom(line, 0);
  }

  lemma OtherWord(spell: Word -> string, r: WordRule, w: string, a: char, rest: string)
    requires Lexicon(spell) && IsWord(w) && !Letter(a) && r.stem != [] && spell(r.stem[0]) != w
    ensures !Matches(Written(spell, r), HEAD + (w + [a] + rest))
  {
    var stem := Name(spell, r.stem, r.exact);
    PrefixBehind(HEAD, stem, w + [a] + rest);
    if stem <= w + [a] + rest {
      WordsAlike(spell(r.stem[0]), Separator(|r.stem| == 1 && r.exact), Name(spell, r.stem[1..], r.exact), w, a, rest);
    }
  }

  /** Names that are new already, though no rule writes them. */
  ghost predicate IsKept(vs: seq<Word>) {
    vs in [[AUTO, TUNING], [STATE, CACHE], [RESOURCE, GUARD], [DRIFT, DETECTION]]
  }

  lemma KeptSettles(i: nat, vs: seq<Word>)
    requires i < RULES && IsKept(vs)
    ensures Settles(Rule(i), Prefix([], [], vs))
  {
    StemHeads(i);
  }

  /** Their variables are left alone, although a shorter prefix of theirs is renamed. */
  lemma KeptUntouched(vs: seq<Word>, rest: string)
    requires IsKept(vs)
    ensures var line := HEAD + Name(Spell, vs, false) + rest; Rewrite(Renames(), line) == line
  {
    var line := HEAD + Name(Spell, vs, false) + rest;
    SpellLexicon();
    forall i | 0 <= i < RULES ensures !Matches(Renames()[i], line) {
      KeptSettles(i, vs);
      SettledNeverMatches(Spell, Rule(i), Prefix([], [], vs), rest);
    }
    UntouchedFrom(line, 0);
  }

  /**
   The script on any text: what it writes has the same lines with the same values and
   terminators, the count is that of the altered lines, and running it again changes nothing.
   */
  method MigrateEnv(text: string) returns (out: string, changes: nat)
    ensures out == Migrated(Renames(), text) && Migrated(Renames(), out) == out
    ensures var before, after := SplitLines(text), SplitLines(out);
            |after| == |before| && changes == Altered(before, after) &&
            forall k | 0 <= k < |before| :: KeptLine(before[k], after[k])
  {
    var rules := Renames();
    RenamesFit();
    MigratedLines(rules, text);
    MigrationIsNormal(rules, text);
    out, changes := Migrate(rules, text);
  }
}
