/** Profile resolution and the hot-reloading configuration manager. */
module Config {
  import opened Common
  import opened Model

  type Template = string

  datatype Mode = Auto | Keybind | Off

  datatype Match = Match(
    workspaceLabel: seq<string>, tabLabel: seq<string>, cwdGlob: seq<string>,
    process: seq<string>, agent: seq<string>, agentStatus: seq<string>)

  datatype Profile = Profile(
    name: string, mode: Option<Mode>, template: Option<Template>, maxWidth: Option<int>, matcher: Match)

  datatype Compiled = Compiled(
    mode: Mode, template: Template, maxWidth: int, profiles: seq<Profile>, pollInterval: int, refreshDebounce: int)

  datatype Effective = Effective(mode: Mode, template: Template, maxWidth: int, profileName: string)

  /** The regular-expression and glob libraries, and path normalization, which may fail. */
  datatype Libraries = Libraries(
    regex: (string, string) -> bool,
    glob: (string, string) -> bool,
    normalize: string -> Option<string>)

  // ----- matching

  predicate RegexMatches(lib: Libraries, patterns: seq<string>, value: string) {
    patterns == [] || exists p | p in patterns :: lib.regex(p, value)
  }

  predicate StringMatches(values: seq<string>, value: string) {
    values == [] || value in values
  }

  predicate GlobMatches(lib: Libraries, patterns: seq<string>, cwd: string) {
    patterns == [] || (lib.normalize(cwd).Some? && exists p | p in patterns :: lib.glob(p, lib.normalize(cwd).value))
  }

  function PaneCwd(pane: Pane): string {
    if pane.effectiveCwd != "" then pane.effectiveCwd
    else if pane.foregroundCwd != "" then pane.foregroundCwd
    else pane.cwd
  }

  predicate Matches(lib: Libraries, m: Match, context: Context) {
    && RegexMatches(lib, m.workspaceLabel, context.workspace.labelText)
    && RegexMatches(lib, m.tabLabel, context.tab.labelText)
    && GlobMatches(lib, m.cwdGlob, PaneCwd(context.pane))
    && RegexMatches(lib, m.process, context.process.name)
    && RegexMatches(lib, m.agent, context.agent.kind)
    && StringMatches(m.agentStatus, context.agent.status)
  }

  // ----- resolution

  /** The value of a field in the last matching profile that sets it. */
  function LastOverride<T>(lib: Libraries, profiles: seq<Profile>, context: Context,
                           field: Profile -> Option<T>): Option<T>
  {
    if profiles == [] then None
    else
      var last := profiles[|profiles| - 1];
      if Matches(lib, last.matcher, context) && field(last).Some? then field(last)
      else LastOverride(lib, profiles[..|profiles| - 1], context, field)
  }

  function ModeOf(p: Profile): Option<Mode> { p.mode }
  function TemplateOf(p: Profile): Option<Template> { p.template }
  function MaxWidthOf(p: Profile): Option<int> { p.maxWidth }

  /** A profile is reported by name only when it overrides something. */
  function NameOf(p: Profile): Option<string> {
    if p.mode.Some? || p.template.Some? || p.maxWidth.Some? then Some(p.name) else None
  }

  function Resolved(lib: Libraries, c: Compiled, profiles: seq<Profile>, context: Context): Effective {
    Effective(
      GetOr(LastOverride(lib, profiles, context, ModeOf), c.mode),
      GetOr(LastOverride(lib, profiles, context, TemplateOf), c.template),
      GetOr(LastOverride(lib, profiles, context, MaxWidthOf), c.maxWidth),
      GetOr(LastOverride(lib, profiles, context, NameOf), "default"))
  }

  /** Each field of the effective configuration is settled on its own, last match first. */
  function Effectively(lib: Libraries, c: Compiled, context: Context): Effective {
    Resolved(lib, c, c.profiles, context)
  }

  /** Applies the matching profiles in declaration order. */
  method Resolve(lib: Libraries, c: Compiled, context: Context) returns (effective: Effective)
    ensures effective == Effectively(lib, c, context)
  {
    effective := Effective(c.mode, c.template, c.maxWidth, "default");
    for i := 0 to |c.profiles|
      invariant effective == Resolved(lib, c, c.profiles[..i], context)
    {
      var profile := c.profiles[i];
      assert c.profiles[..i + 1][..i] == c.profiles[..i];
      if Matches(lib, profile.matcher, context) {
        var overrode := false;
        if profile.mode.Some? {
          effective, overrode := effective.(mode := profile.mode.value), true;
        }
        if profile.template.Some? {
          effective, overrode := effective.(template := profile.template.value), true;
        }
        if profile.maxWidth.Some? {
          effective, overrode := effective.(maxWidth := profile.maxWidth.value), true;
        }
        if overrode {
          effective := effective.(profileName := profile.name);
        }
      }
    }
    assert c.profiles[..|c.profiles|] == c.profiles;
  }

  /** A value is the effective override exactly when some matching profile sets it and no
      later matching profile sets the field at all. */
  lemma {:induction false} OverrideIsTheLastOne<T>(lib: Libraries, profiles: seq<Profile>, context: Context,
                                                   field: Profile -> Option<T>, v: T)
    ensures LastOverride(lib, profiles, context, field) == Some(v) <==>
            exists i :: 0 <= i < |profiles| && Sets(lib, profiles[i], context, field) && field(profiles[i]) == Some(v)
                        && forall j | i < j < |profiles| :: !Sets(lib, profiles[j], context, field)
  {
    if profiles != [] {
      var n := |profiles| - 1;
      var before := profiles[..n];
      OverrideIsTheLastOne(lib, before, context, field, v);
      if !Sets(lib, profiles[n], context, field) {
        assert forall i | 0 <= i < n :: before[i] == profiles[i];
      } else {
        assert profiles[n] == profiles[|profiles| - 1];
      }
    }
  }

  predicate Sets<T>(lib: Libraries, p: Profile, context: Context, field: Profile -> Option<T>) {
    Matches(lib, p.matcher, context) && field(p).Some?
  }

  /** A condition that is empty accepts everything; any other needs an entry that accepts. */
  ghost predicate Accepted(entries: seq<string>, accepts: string -> bool) {
    entries != [] ==> exists k :: 0 <= k < |entries| && accepts(entries[k])
  }

  /** The directory of a pane: the effective one, or else its foreground one, or else its own. */
  ghost predicate IsDirectory(pane: Pane, dir: string) {
    && (pane.effectiveCwd != "" ==> dir == pane.effectiveCwd)
    && (pane.effectiveCwd == "" && pane.foregroundCwd != "" ==> dir == pane.foregroundCwd)
    && (pane.effectiveCwd == "" && pane.foregroundCwd == "" ==> dir == pane.cwd)
  }

  /** The six conditions of a profile, each on its own field of the context. */
  ghost predicate MeetsAll(lib: Libraries, m: Match, c: Context) {
    && Accepted(m.workspaceLabel, p => lib.regex(p, c.workspace.labelText))
    && Accepted(m.tabLabel, p => lib.regex(p, c.tab.labelText))
    && (forall dir | IsDirectory(c.pane, dir) ::
          Accepted(m.cwdGlob, p => lib.normalize(dir).Some? && lib.glob(p, lib.normalize(dir).value)))
    && Accepted(m.process, p => lib.regex(p, c.process.name))
    && Accepted(m.agent, p => lib.regex(p, c.agent.kind))
    && Accepted(m.agentStatus, p => p == c.agent.status)
  }

  lemma MatchesIff(lib: Libraries, m: Match, c: Context)
    ensures Matches(lib, m, c) <==> MeetsAll(lib, m, c)
  {
    assert IsDirectory(c.pane, PaneCwd(c.pane));
    RegexIff(lib, m.workspaceLabel, c.workspace.labelText);
    RegexIff(lib, m.tabLabel, c.tab.labelText);
    RegexIff(lib, m.process, c.process.name);
    RegexIff(lib, m.agent, c.agent.kind);
    GlobIff(lib, m.cwdGlob, PaneCwd(c.pane));
    if c.agent.status in m.agentStatus {
      var k :| 0 <= k < |m.agentStatus| && m.agentStatus[k] == c.agent.status;
    }
  }

  lemma RegexIff(lib: Libraries, patterns: seq<string>, value: string)
    ensures RegexMatches(lib, patterns, value) <==> Accepted(patterns, p => lib.regex(p, value))
  {
    if p :| p in patterns && lib.regex(p, value) {
      var k :| 0 <= k < |patterns| && patterns[k] == p;
    }
  }

  lemma GlobIff(lib: Libraries, patterns: seq<string>, dir: string)
    ensures GlobMatches(lib, patterns, dir) <==>
            Accepted(patterns, p => lib.normalize(dir).Some? && lib.glob(p, lib.normalize(dir).value))
  {
    if lib.normalize(dir).Some? {
      if p :| p in patterns && lib.glob(p, lib.normalize(dir).value) {
        var k :| 0 <= k < |patterns| && patterns[k] == p;
      }
    }
  }

  /** The i-th profile is the last one that sets the field and meets all its conditions. */
  ghost predicate Decides<T>(lib: Libraries, profiles: seq<Profile>, c: Context, field: Profile -> Option<T>, i: int) {
    && 0 <= i < |profiles| && field(profiles[i]).Some? && MeetsAll(lib, profiles[i].matcher, c)
    && forall j | i < j < |profiles| :: field(profiles[j]).Some? ==> !MeetsAll(lib, profiles[j].matcher, c)
  }

  /** A value is in effect exactly when the last such profile sets it, or when there is no such
      profile and it is the default. */
  ghost predicate InEffect<T>(lib: Libraries, profiles: seq<Profile>, c: Context, field: Profile -> Option<T>,
                              default: T, v: T)
  {
    || (exists i :: Decides(lib, profiles, c, field, i) && field(profiles[i]) == Some(v))
    || ((forall i :: !Decides(lib, profiles, c, field, i)) && v == default)
  }

  lemma {:induction false} InEffectIff<T>(lib: Libraries, profiles: seq<Profile>, c: Context,
                                          field: Profile -> Option<T>, default: T, v: T)
    ensures InEffect(lib, profiles, c, field, default, v) <==>
            GetOr(LastOverride(lib, profiles, c, field), default) == v
  {
    if profiles != [] {
      var n := |profiles| - 1;
      MatchesIff(lib, profiles[n].matcher, c);
      InEffectIff(lib, profiles[..n], c, field, default, v);
      if Sets(lib, profiles[n], c, field) {
        assert Decides(lib, profiles, c, field, n);
      } else {
        forall i ensures Decides(lib, profiles, c, field, i) <==> Decides(lib, profiles[..n], c, field, i) {
        }
      }
    }
  }

  /** What `Resolve` returns, field by field, in terms of the six conditions alone. */
  lemma EffectivelyIff(lib: Libraries, c: Compiled, context: Context, e: Effective)
    ensures Effectively(lib, c, context) == e <==>
            && InEffect(lib, c.profiles, context, (p: Profile) => p.mode, c.mode, e.mode)
            && InEffect(lib, c.profiles, context, (p: Profile) => p.template, c.template, e.template)
            && InEffect(lib, c.profiles, context, (p: Profile) => p.maxWidth, c.maxWidth, e.maxWidth)
            && InEffect(lib, c.profiles, context, (p: Profile) =>
                 if p.mode == None && p.template == None && p.maxWidth == None then None else Some(p.name),
                 "default", e.profileName)
  {
    var mode, template, maxWidth := (p: Profile) => p.mode, (p: Profile) => p.template, (p: Profile) => p.maxWidth;
    var name := (p: Profile) =>
      if p.mode == None && p.template == None && p.maxWidth == None then None else Some(p.name);
    SameOverride(lib, c.profiles, context, mode, ModeOf);
    SameOverride(lib, c.profiles, context, template, TemplateOf);
    SameOverride(lib, c.profiles, context, maxWidth, MaxWidthOf);
    SameOverride(lib, c.profiles, context, name, NameOf);
    InEffectIff(lib, c.profiles, context, mode, c.mode, e.mode);
    InEffectIff(lib, c.profiles, context, template, c.template, e.template);
    InEffectIff(lib, c.profiles, context, maxWidth, c.maxWidth, e.maxWidth);
    InEffectIff(lib, c.profiles, context, name, "default", e.profileName);
  }

  lemma {:induction false} SameOverride<T>(lib: Libraries, profiles: seq<Profile>, c: Context,
                                           f: Profile -> Option<T>, g: Profile -> Option<T>)
    requires forall p :: f(p) == g(p)
    ensures LastOverride(lib, profiles, c, f) == LastOverride(lib, profiles, c, g)
  {
    if profiles != [] {
      SameOverride(lib, profiles[..|profiles| - 1], c, f, g);
    }
  }

  /** What profile matching can see of a context. */
  predicate SameToMatchers(a: Context, b: Context) {
    && a.workspace.labelText == b.workspace.labelText && a.tab.labelText == b.tab.labelText
    && PaneCwd(a.pane) == PaneCwd(b.pane) && a.process.name == b.process.name
    && a.agent.kind == b.agent.kind && a.agent.status == b.agent.status
  }

  lemma {:induction false} OverrideSeesOnlyMatchers<T>(lib: Libraries, profiles: seq<Profile>, a: Context, b: Context,
                                                       field: Profile -> Option<T>)
    requires SameToMatchers(a, b)
    ensures LastOverride(lib, profiles, a, field) == LastOverride(lib, profiles, b, field)
  {
    if profiles != [] {
      OverrideSeesOnlyMatchers(lib, profiles[..|profiles| - 1], a, b, field);
    }
  }

  lemma ResolutionSeesOnlyMatchers(lib: Libraries, c: Compiled, a: Context, b: Context)
    requires SameToMatchers(a, b)
    ensures Effectively(lib, c, a) == Effectively(lib, c, b)
  {
    OverrideSeesOnlyMatchers(lib, c.profiles, a, b, ModeOf);
    OverrideSeesOnlyMatchers(lib, c.profiles, a, b, TemplateOf);
    OverrideSeesOnlyMatchers(lib, c.profiles, a, b, MaxWidthOf);
    OverrideSeesOnlyMatchers(lib, c.profiles, a, b, NameOf);
  }

  // ----- the manager

  /** A version of the configuration file, and what the manager remembers of one. */
  datatype Version = Missing | Present(modTime: int, size: nat, bytes: string)

  datatype Signature = Signature(present: bool, modTime: int, size: nat, hash: string)

  /** The file over time, the digest, and the validation of a version. */
  datatype World = World(
    file: nat -> Version,
    digest: string -> string,
    load: Version -> Option<Compiled>)

  /** The moments at which one reload looks at the file, and its transient I/O errors. */
  datatype Call = Call(statAt: nat, readAt: nat, loadAt: nat, signatureFails: bool, loadFails: bool)

  const NO_SIGNATURE := Signature(false, 0, 0, "")

  /** The signature combines two looks: the file may change between them. */
  function SignatureOf(w: World, stat: Version, read: Version): Option<Signature> {
    if stat == Missing then Some(NO_SIGNATURE)
    else if read == Missing then None
    else Some(Signature(true, stat.modTime, stat.size, w.digest(read.bytes)))
  }

  /** Two looks give the same signature exactly when both find the file missing, or both find
      it present with the same time and size, and the texts read have the same digest. */
  lemma SignatureSeparates(w: World, stat: Version, read: Version, stat': Version, read': Version)
    requires read.Present? && read'.Present?
    ensures SignatureOf(w, stat, read).Some?
    ensures SignatureOf(w, stat, read) == SignatureOf(w, stat', read') <==>
            || (stat == Missing && stat' == Missing)
            || (stat.Present? && stat'.Present? && stat.modTime == stat'.modTime && stat.size == stat'.size
                && w.digest(read.bytes) == w.digest(read'.bytes))
  {
  }

  function Observed(w: World, call: Call): Option<Signature> {
    if call.signatureFails then None else SignatureOf(w, w.file(call.statAt), w.file(call.readAt))
  }

  function LoadResult(w: World, call: Call): Option<Compiled> {
    if call.loadFails then None else w.load(w.file(call.loadAt))
  }

  datatype Memory = Memory(seen: bool, signature: Signature, current: Option<Compiled>)

  datatype Report = Report(changed: bool, failed: bool)

  function Reload(m: Memory, observed: Option<Signature>, loaded: Option<Compiled>): (Memory, Report) {
    if observed == None then (m, Report(false, true))
    else if m.seen && observed.value == m.signature then (m, Report(false, false))
    else
      (Memory(true, observed.value, if loaded.Some? then loaded else m.current),
       Report(loaded.Some?, loaded == None))
  }

  /** Whether a signature was observed that is not the remembered one. */
  predicate Unseen(m: Memory, observed: Option<Signature>) {
    observed.Some? && (!m.seen || m.signature != observed.value)
  }

  class Manager {
    var seen: bool
    var signature: Signature
    var current: Option<Compiled>

    ghost function Remembered(): Memory
      reads this
    {
      Memory(seen, signature, current)
    }

    constructor ()
      ensures Remembered() == Memory(false, NO_SIGNATURE, None)
    {
      seen, signature, current := false, NO_SIGNATURE, None;
    }

    /** `observed` is the signature read first, `loaded` what the later load yields.  Reloads
        are serialized, so the comparison repeated after the load gives the same answer. */
    method ReloadIfChanged(observed: Option<Signature>, loaded: Option<Compiled>) returns (report: Report)
      modifies this
      ensures (Remembered(), report) == Reload(old(Remembered()), observed, loaded)
      ensures old(current).Some? ==> current.Some?
      ensures report.changed <==> Unseen(old(Remembered()), observed) && loaded.Some?
      ensures report.failed <==> observed == None || (Unseen(old(Remembered()), observed) && loaded == None)
      ensures current == if report.changed then loaded else old(current)
      ensures Unseen(old(Remembered()), observed) ==> seen && Some(signature) == observed
      ensures !Unseen(old(Remembered()), observed) ==> seen == old(seen) && signature == old(signature)
    {
      if observed == None {
        return Report(false, true);
      }
      var same := seen && observed.value == signature;
      if same {
        return Report(false, false);
      }
      seen, signature := true, observed.value;
      if loaded == None {
        return Report(false, true);
      }
      current := loaded;
      return Report(true, false);
    }
  }

  /** Reloads are serialized: each one starts after the one before it has loaded. */
  predicate Ordered(calls: seq<Call>) {
    && (forall i | 0 <= i < |calls| :: calls[i].statAt <= calls[i].readAt <= calls[i].loadAt)
    && (forall i, j | 0 <= i < j < |calls| :: calls[i].loadAt <= calls[j].statAt)
  }

  function After(w: World, calls: seq<Call>): Memory {
    if calls == [] then Memory(false, NO_SIGNATURE, None)
    else
      var last := calls[|calls| - 1];
      Reload(After(w, calls[..|calls| - 1]), Observed(w, last), LoadResult(w, last)).0
  }

  /** A reload that observes the signature of `v` has loaded `v`: the file did not pass
      through another version between those looks, and the load itself read the file. */
  predicate TrueSight(w: World, v: Version, call: Call) {
    Observed(w, call) == SignatureOf(w, v, v) ==> w.file(call.loadAt) == v && !call.loadFails
  }

  lemma {:induction false} SignatureOfIsLoaded(w: World, v: Version, calls: seq<Call>)
    requires SignatureOf(w, v, v).Some?
    requires forall c | c in calls :: TrueSight(w, v, c)
    ensures var m := After(w, calls);
            m.seen && Some(m.signature) == SignatureOf(w, v, v) && w.load(v).Some? ==> m.current == w.load(v)
  {
    if calls != [] {
      assert calls[|calls| - 1] in calls;
      SignatureOfIsLoaded(w, v, calls[..|calls| - 1]);
    }
  }

  // ----- which reload decides

  /** Whether the i-th reload observes a signature that is not the remembered one. */
  predicate Fresh(w: World, calls: seq<Call>, i: nat)
    requires i < |calls|
  {
    var m := After(w, calls[..i]);
    Observed(w, calls[i]).Some? && !(m.seen && Some(m.signature) == Observed(w, calls[i]))
  }

  /** The i-th reload is the last fresh one. */
  predicate LastFresh(w: World, calls: seq<Call>, i: nat) {
    && i < |calls| && Fresh(w, calls, i)
    && forall j | i < j < |calls| :: !Fresh(w, calls, j)
  }

  lemma FreshPrefix(w: World, calls: seq<Call>, n: nat, i: nat)
    requires i < n <= |calls|
    ensures Fresh(w, calls[..n], i) == Fresh(w, calls, i)
  {
    assert calls[..n][..i] == calls[..i];
  }

  /** The last fresh reload decides over everything after it: its signature is remembered, and
      the configuration is the one it loaded, or the one before it if it loaded none. */
  lemma {:induction false} LastFreshDecides(w: World, calls: seq<Call>, k: nat)
    requires LastFresh(w, calls, k)
    ensures var m := After(w, calls);
            && m.seen && Some(m.signature) == Observed(w, calls[k])
            && m.current == if LoadResult(w, calls[k]).Some? then LoadResult(w, calls[k])
                            else After(w, calls[..k]).current
    decreases |calls|
  {
    var n := |calls| - 1;
    if k < n {
      forall j | k <= j < n ensures Fresh(w, calls[..n], j) == Fresh(w, calls, j) {
        FreshPrefix(w, calls, n, j);
      }
      LastFreshDecides(w, calls[..n], k);
      assert calls[..n][..k] == calls[..k] && !Fresh(w, calls, n);
    }
  }

  /** If anything was seen, some reload was the last fresh one. */
  lemma {:induction false} FindLastFresh(w: World, calls: seq<Call>) returns (k: nat)
    requires After(w, calls).seen
    ensures LastFresh(w, calls, k)
  {
    var n := |calls| - 1;
    if Fresh(w, calls, n) {
      k := n;
    } else {
      k := FindLastFresh(w, calls[..n]);
      FreshPrefix(w, calls, n, k);
      forall j | k < j < n ensures !Fresh(w, calls, j) {
        FreshPrefix(w, calls, n, j);
      }
    }
  }

  /** The reload sees the version at all its looks; the load may still fail. */
  predicate Sees(w: World, v: Version, call: Call) {
    w.file(call.statAt) == v && w.file(call.readAt) == v && w.file(call.loadAt) == v && !call.signatureFails
  }

  /** Exactly when hot reload has converged.  After a reload that sees a valid version `v`,
      its configuration is current if and only if the last fresh reload, which observed the
      signature of `v`, loaded it, or loaded nothing while it was current already. */
  lemma ReloadConvergesIff(w: World, v: Version, calls: seq<Call>, last: Call) returns (k: nat)
    requires Sees(w, v, last) && w.load(v).Some?
    ensures LastFresh(w, calls + [last], k)
    ensures Observed(w, (calls + [last])[k]) == SignatureOf(w, v, v)
    ensures var loaded := LoadResult(w, (calls + [last])[k]);
            After(w, calls + [last]).current == w.load(v) <==>
              loaded == w.load(v) || (loaded == None && After(w, (calls + [last])[..k]).current == w.load(v))
  {
    var all := calls + [last];
    assert all[..|all| - 1] == calls;
    k := FindLastFresh(w, all);
    LastFreshDecides(w, all, k);
  }

  /** In particular it converges, although the file is read twice, if every reload that has
      observed the signature of the final version has loaded that version.  An invalid final
      version leaves the last valid configuration, without any condition. */
  lemma ReloadConverges(w: World, v: Version, calls: seq<Call>, last: Call)
    requires Sees(w, v, last)
    requires w.load(v).Some? ==> forall c | c in calls + [last] :: TrueSight(w, v, c)
    ensures After(w, calls + [last]).current
         == if w.load(v).Some? then w.load(v) else After(w, calls).current
  {
    var all := calls + [last];
    assert all[|all| - 1] == last && all[..|all| - 1] == calls;
    if w.load(v).Some? {
      var k := ReloadConvergesIff(w, v, calls, last);
      assert all[k] in all;
    }
  }

  /** The signature of the final version never belongs to a pair of looks before the file
      became final for good. */
  ghost predicate NoRecurrence(w: World, v: Version, stable: nat) {
    forall t1: nat, t2: nat
      | t1 <= t2 && t1 < stable && SignatureOf(w, w.file(t1), w.file(t2)) == SignatureOf(w, v, v) ::
      forall u: nat | t1 <= u :: w.file(u) == v
  }

  /** A condition on the file alone: if its final signature does not recur, then every reload
      that observes it loads the final version, unless the read itself fails. */
  lemma SightIsTrue(w: World, v: Version, stable: nat, call: Call)
    requires call.statAt <= call.readAt <= call.loadAt
    requires forall u: nat | u >= stable :: w.file(u) == v
    requires NoRecurrence(w, v, stable)
    requires Observed(w, call) == SignatureOf(w, v, v) ==> !call.loadFails
    ensures TrueSight(w, v, call)
  {
    var t1, t2 := call.statAt, call.readAt;
    if Observed(w, call) == SignatureOf(w, v, v) && t1 < stable {
      assert SignatureOf(w, w.file(t1), w.file(t2)) == SignatureOf(w, v, v);
    }
  }

  /** A configuration never goes away again. */
  lemma {:induction false} CurrentStays(w: World, calls: seq<Call>, n: nat)
    requires n <= |calls| && After(w, calls[..n]).current.Some?
    ensures After(w, calls).current.Some?
  {
    if n < |calls| {
      assert calls[..|calls| - 1][..n] == calls[..n];
      CurrentStays(w, calls[..|calls| - 1], n);
    } else {
      assert calls[..n] == calls;
    }
  }

  /** The memory after further reloads, ... */
  function AfterMore(w: World, m: Memory, calls: seq<Call>): Memory
    decreases |calls|
  {
    if calls == [] then m
    else AfterMore(w, Reload(m, Observed(w, calls[0]), LoadResult(w, calls[0])).0, calls[1..])
  }

  /** ... and how many of them observed the file and yet reported an error. */
  function LoadErrors(w: World, m: Memory, calls: seq<Call>): nat
    decreases |calls|
  {
    if calls == [] then 0
    else
      var (next, report) := Reload(m, Observed(w, calls[0]), LoadResult(w, calls[0]));
      (if report.failed && Observed(w, calls[0]).Some? then 1 else 0) + LoadErrors(w, next, calls[1..])
  }

  predicate Remembers(w: World, m: Memory, v: Version) {
    m.seen && Some(m.signature) == SignatureOf(w, v, v)
  }

  /** Over any number of reloads that look at an unchanged invalid version, whether or not a
      look fails, the version is reported exactly once, by the first reload that observes its
      signature, unless that was already remembered: then never.  The configuration stays. */
  lemma {:induction false} InvalidVersionErrsOnce(w: World, v: Version, m: Memory, calls: seq<Call>)
    requires w.load(v) == None
    requires forall c | c in calls :: w.file(c.statAt) == v && w.file(c.readAt) == v && w.file(c.loadAt) == v
    ensures LoadErrors(w, m, calls)
         == if Remembers(w, m, v) || (forall c | c in calls :: c.signatureFails) then 0 else 1
    ensures AfterMore(w, m, calls).current == m.current
    decreases |calls|
  {
    if calls != [] {
      var call, rest := calls[0], calls[1..];
      assert calls == [call] + rest;
      InvalidVersionErrsOnce(w, v, Reload(m, Observed(w, call), LoadResult(w, call)).0, rest);
    }
  }

  /** Why the load must not fail on the final version: the signature is remembered before
      the load's outcome is known.  On a file that never changes, the configuration is
      current after any reloads exactly when the load of the first successful look
      succeeded; later looks do not repair it. */
  lemma {:induction false} ConstantFileIsLoadedOrNever(w: World, v: Version, calls: seq<Call>, first: nat)
    requires forall u: nat :: w.file(u) == v
    requires w.load(v).Some?
    requires first < |calls| && !calls[first].signatureFails
    requires forall i | 0 <= i < first :: calls[i].signatureFails
    ensures After(w, calls).seen && Some(After(w, calls).signature) == SignatureOf(w, v, v)
    ensures After(w, calls).current == w.load(v) <==> !calls[first].loadFails
    decreases |calls|
  {
    var n := |calls| - 1;
    if first < n {
      ConstantFileIsLoadedOrNever(w, v, calls[..n], first);
    } else {
      NothingSeen(w, calls[..n]);
    }
  }

  lemma {:induction false} NothingSeen(w: World, calls: seq<Call>)
    requires forall i | 0 <= i < |calls| :: calls[i].signatureFails
    ensures After(w, calls) == Memory(false, NO_SIGNATURE, None)
  {
    if calls != [] {
      NothingSeen(w, calls[..|calls| - 1]);
    }
  }

  /** Why a signature must not recur: a file that appears between the two looks of the first
      reload and is gone again is remembered as missing, and its configuration is pinned. */
  lemma RecurringSignaturePins(load: Version -> Option<Compiled>, digest: string -> string,
                               passing: Version, other: Compiled)
    requires passing != Missing && load(passing) == Some(other) && load(Missing) != Some(other)
    ensures var w := World((t: nat) => if t == 1 then passing else Missing, digest, load);
            var calls := [Call(0, 0, 1, false, false), Call(2, 2, 2, false, false)];
            && Ordered(calls) && (forall u: nat | u >= 2 :: w.file(u) == Missing)
            && After(w, calls).current == Some(other) != w.load(Missing)
            && !NoRecurrence(w, Missing, 2)
  {
    var w := World((t: nat) => if t == 1 then passing else Missing, digest, load);
    var calls := [Call(0, 0, 1, false, false), Call(2, 2, 2, false, false)];
    assert calls[..1] == [calls[0]] && calls[..1][..0] == [];
    assert After(w, calls[..1][..0]) == Memory(false, NO_SIGNATURE, None);
    assert After(w, calls[..1]) == Memory(true, NO_SIGNATURE, Some(other));
    assert w.file(1) != Missing;
    assert SignatureOf(w, w.file(0), w.file(0)) == SignatureOf(w, Missing, Missing);
  }
}
