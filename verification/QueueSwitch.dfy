/** Switching the managed queue backend: a chain of checks that changes nothing, then a write to the
    environment file and the process environment that is undone when a later step fails. */
module QueueSwitch {
  import opened Model
  import opened Text
  import opened EnvFile

  datatype Backend = Local | Celery

  const ENABLED := "QUEUE_ENABLED"
  const BACKEND := "QUEUE_BACKEND"
  const REDIS := "REDIS_URL"
  const BROKER := "CELERY_BROKER_URL"
  const DEFAULT_REDIS := "redis://127.0.0.1:6379/0"

  function QueueKeys(): seq<string> {
    [ENABLED, BACKEND, REDIS, BROKER]
  }

  /** What the surroundings answer during one switch. `active` is None when the counts cannot be read,
      `applyFault` is the number of variables set before the process environment refuses one. */
  datatype World = World(
    managed: bool, lockFree: bool, active: Option<nat>, settings: Option<Backend>, allowed: string -> bool,
    reachable: bool, fileReadable: bool,
    writeFault: bool, applyFault: Option<nat>, restartFault: bool, stillReachable: bool,
    undoWriteFault: bool, undoRestartFault: bool, summaryFault: bool)

  /** `Refused` carries the status code; `Restored` and `Broken` are the two failures after writing began. */
  datatype Result = Switched | Refused(code: nat) | Restored | Broken | SummaryFailed

  function Lower(s: string): string {
    seq(|s|, i requires 0 <= i < |s| => if 'A' <= s[i] <= 'Z' then s[i] - 'A' + 'a' else s[i])
  }

  const CAPITALS := "ABCDEFGHIJKLMNOPQRSTUVWXYZ"
  const SMALL := "abcdefghijklmnopqrstuvwxyz"

  /** Each capital letter becomes the small letter in the same place of the alphabet; every other character stays. */
  lemma LowerInLetters(s: string, i: nat)
    requires i < |s|
    ensures |Lower(s)| == |s|
    ensures forall k :: 0 <= k < 26 && s[i] == CAPITALS[k] ==> Lower(s)[i] == SMALL[k]
    ensures s[i] !in CAPITALS ==> Lower(s)[i] == s[i]
  {
    if 'A' <= s[i] <= 'Z' {
      var k := s[i] as int - 'A' as int;
      assert CAPITALS[k] == s[i];
    }
  }

  function Target(backend: string): Option<Backend> {
    if Lower(Strip(backend)) == "local" then Some(Local)
    else if Lower(Strip(backend)) == "celery" then Some(Celery)
    else None
  }

  function BackendName(target: Backend): string {
    match target
    case Local => "local"
    case Celery => "celery"
  }

  /** The broker URL saved in the file; the broker's own setting wins. */
  function SavedRedis(text: string): Option<string> {
    if ReadKey(text, BROKER).Some? then ReadKey(text, BROKER) else ReadKey(text, REDIS)
  }

  /** The URL a switch to the broker would use. */
  function Chosen(text: string, url: string): string {
    if Strip(url) != [] then Strip(url)
    else if SavedRedis(text).Some? then Strip(SavedRedis(text).value)
    else DEFAULT_REDIS
  }

  function SwitchUpdates(target: Backend, redis: string): Updates {
    [(ENABLED, "true"), (BACKEND, BackendName(target))] + (if target == Celery then [(REDIS, redis), (BROKER, redis)]
                                                           else [])
  }

  /** The conditions of a switch, as one conjunction. */
  predicate MaySwitch(w: World, text: string, backend: string, url: string) {
    && Target(backend).Some? && w.managed && w.lockFree && w.active == Some(0) && w.settings.Some? && w.fileReadable
    && (Target(backend) == Some(Celery) ==> w.allowed(Chosen(text, url)) && w.reachable)
  }

  /** No step after the write fails. */
  predicate Smooth(w: World, target: Backend) {
    && !w.writeFault && !w.restartFault && (target == Celery ==> w.stillReachable)
    && (w.applyFault.Some? ==> w.applyFault.value >= |SwitchUpdates(target, "")|)
  }

  function WithUpdates(env: map<string, string>, updates: Updates): map<string, string> {
    if updates == [] then env
    else
      var last := updates[|updates| - 1];
      WithUpdates(env, updates[..|updates| - 1])[last.0 := last.1]
  }

  /** The values some variables had, or None where they were not set. */
  function Snapshot(env: map<string, string>, keys: seq<string>): map<string, Option<string>> {
    map k | k in keys :: if k in env then Some(env[k]) else None
  }

  lemma {:induction false} UpdatesStayWithin(env: map<string, string>, updates: Updates, keys: set<string>, k: string)
    requires forall i :: 0 <= i < |updates| ==> updates[i].0 in keys
    requires k !in keys
    ensures k in WithUpdates(env, updates) <==> k in env
    ensures k in env ==> WithUpdates(env, updates)[k] == env[k]
  {
    if updates != [] {
      UpdatesStayWithin(env, updates[..|updates| - 1], keys, k);
    }
  }

  // ----- a switch, told by what is set and what reads back

  /** The URL of the request, else the saved one, the broker's own before the general one, else the default. */
  predicate GivenOrSaved(text: string, url: string, used: string) {
    if Strip(url) != [] then used == Strip(url)
    else if ReadKey(text, "CELERY_BROKER_URL").Some? then used == ReadKey(text, "CELERY_BROKER_URL").value
    else if ReadKey(text, "REDIS_URL").Some? then used == ReadKey(text, "REDIS_URL").value
    else used == "redis://127.0.0.1:6379/0"
  }

  predicate Holds(env: map<string, string>, text: string, key: string, value: string) {
    key in env && env[key] == value && ReadKey(text, key) == Some(value)
  }

  predicate SameIn(had: map<string, string>, has: map<string, string>, key: string) {
    (key in has <==> key in had) && (key in had ==> has[key] == had[key])
  }

  /** Variable and file say that the queue runs locally, and all else is as it was. */
  ghost predicate RunsLocally(before: string, after: string, had: map<string, string>, has: map<string, string>) {
    && Holds(has, after, "QUEUE_ENABLED", "true") && Holds(has, after, "QUEUE_BACKEND", "local")
    && (forall k :: k != "QUEUE_ENABLED" && k != "QUEUE_BACKEND" ==> SameIn(had, has, k))
    && (forall k :: Name(k) && k != "QUEUE_ENABLED" && k != "QUEUE_BACKEND" ==> ReadKey(after, k) == ReadKey(before, k))
  }

  /** Variables say that the queue runs through a broker at the chosen URL, and all else is as it was. The file says
      the same if the URL is one line. */
  ghost predicate RunsThrough(url: string, before: string, after: string, had: map<string, string>,
                              has: map<string, string>)
  {
    && "CELERY_BROKER_URL" in has && GivenOrSaved(before, url, has["CELERY_BROKER_URL"])
    && "REDIS_URL" in has && has["REDIS_URL"] == has["CELERY_BROKER_URL"]
    && "QUEUE_ENABLED" in has && has["QUEUE_ENABLED"] == "true"
    && "QUEUE_BACKEND" in has && has["QUEUE_BACKEND"] == "celery"
    && (forall k :: k !in QueueKeys() ==> SameIn(had, has, k))
    && (OneLine(has["CELERY_BROKER_URL"]) ==>
          && (forall k :: k in QueueKeys() ==> Holds(has, after, k, has[k]))
          && (forall k :: Name(k) && k !in QueueKeys() ==> ReadKey(after, k) == ReadKey(before, k)))
  }

  /** No job and no dispatch was active, the target was named, and everything runs as asked for. */
  ghost predicate SwitchedTo(w: World, backend: string, url: string, before: string, after: string,
                             had: map<string, string>, has: map<string, string>)
  {
    && w.managed && w.lockFree && w.active == Some(0) && w.settings.Some? && w.fileReadable
    && if Lower(Strip(backend)) == "local" then RunsLocally(before, after, had, has)
       else
         && Lower(Strip(backend)) == "celery" && RunsThrough(url, before, after, had, has)
         && w.allowed(has["CELERY_BROKER_URL"]) && w.reachable && w.stillReachable
  }

  lemma {:induction false} ReadIsStripped(lines: seq<string>, key: string)
    ensures ReadLines(lines, key).Some? ==> ReadLines(lines, key).value != [] && Stripped(ReadLines(lines, key).value)
  {
    hide ParsedValue, Stripped, StartsWith;
    if lines != [] {
      ReadIsStripped(lines[..|lines| - 1], key);
      var last := lines[|lines| - 1];
      if StartsWith(last, key + "=") {
        LongEnough(last, key);
        ParsedIsStripped(last[|key| + 1..]);
      }
    }
  }

  lemma LongEnough(line: string, key: string)
    requires StartsWith(line, key + "=")
    ensures |key| + 1 <= |line|
  {
  }

  lemma ParsedIsStripped(raw: string)
    ensures ParsedValue(raw).Some? ==> ParsedValue(raw).value != [] && Stripped(ParsedValue(raw).value)
  {
    hide Words, Strip, Stripped;
    if Words(Strip(raw)).Some? && |Words(Strip(raw)).value| == 1 {
      StripIsStripped(Words(Strip(raw)).value[0]);
    }
  }

  lemma ChosenIsGivenOrSaved(text: string, url: string)
    ensures GivenOrSaved(text, url, Chosen(text, url)) && Chosen(text, url) != [] && Stripped(Chosen(text, url))
  {
    KeyReadsStripped(text, BROKER);
    KeyReadsStripped(text, REDIS);
    StripIsStripped(url);
    assert Stripped(DEFAULT_REDIS) && BROKER == "CELERY_BROKER_URL" && REDIS == "REDIS_URL";
    hide Strip, ReadKey, Stripped;
  }

  lemma KeyReadsStripped(text: string, key: string)
    ensures ReadKey(text, key).Some? ==>
              var value := ReadKey(text, key).value;
              value != [] && Stripped(value) && Strip(value) == value
  {
    ReadIsStripped(SplitLines(text), key);
    if ReadKey(text, key).Some? {
      StripStripped(ReadKey(text, key).value);
    }
    hide Strip, ReadLines, Stripped;
  }

  lemma StripIsStripped(s: string)
    ensures Stripped(Strip(s))
  {
    hide Whitespace;
  }

  lemma {:induction false} UpdatesAreSet(env: map<string, string>, updates: Updates, i: nat)
    requires Distinct(updates) && i < |updates|
    ensures updates[i].0 in WithUpdates(env, updates) && WithUpdates(env, updates)[updates[i].0] == updates[i].1
    decreases |updates|
  {
    if i < |updates| - 1 {
      assert updates[..|updates| - 1][i] == updates[i];
      UpdatesAreSet(env, updates[..|updates| - 1], i);
    }
  }

  lemma OthersStay(env: map<string, string>, updates: Updates, k: string)
    requires forall i :: 0 <= i < |updates| ==> updates[i].0 != k
    ensures SameIn(env, WithUpdates(env, updates), k)
  {
    UpdatesStayWithin(env, updates, (set i: nat | i < |updates| :: updates[i].0), k);
  }

  lemma SettingHolds(text: string, env: map<string, string>, updates: Updates, i: nat)
    requires Writable(updates) && AllValuesOneLine(updates) && i < |updates|
    requires updates[i].1 != [] && Stripped(updates[i].1)
    ensures Holds(WithUpdates(env, updates), Written(text, updates), updates[i].0, updates[i].1)
  {
    UpdatesAreSet(env, updates, i);
    UpdatedKeyReadsBack(text, updates, i);
    StripStripped(updates[i].1);
    hide Written, ReadKey, WithUpdates, Strip;
  }

  lemma LocalTold(text: string, env: map<string, string>, redis: string)
    ensures RunsLocally(text, Written(text, SwitchUpdates(Local, redis)), env,
                        WithUpdates(env, SwitchUpdates(Local, redis)))
  {
    var updates := SwitchUpdates(Local, redis);
    KeysAreWritable(Local, redis);
    assert |updates| == 2 && updates[0] == ("QUEUE_ENABLED", "true") && updates[1] == ("QUEUE_BACKEND", "local");
    assert Stripped("true") && Stripped("local");
    hide *;
    SettingHolds(text, env, updates, 0);
    SettingHolds(text, env, updates, 1);
    forall k | k != "QUEUE_ENABLED" && k != "QUEUE_BACKEND"
      ensures SameIn(env, WithUpdates(env, updates), k)
      ensures Name(k) ==> ReadKey(Written(text, updates), k) == ReadKey(text, k)
    {
      OthersStay(env, updates, k);
      if Name(k) {
        OtherKeysReadAsBefore(text, updates, k);
      }
    }
    LocalParts(text, Written(text, updates), env, WithUpdates(env, updates));
  }

  /** What the four updates of a switch to the broker are. */
  lemma BrokerSettings(redis: string)
    ensures
      SwitchUpdates(Celery, redis) ==
      [("QUEUE_ENABLED", "true"), ("QUEUE_BACKEND", "celery"), ("REDIS_URL", redis), ("CELERY_BROKER_URL", redis)]
    ensures QueueKeys() == ["QUEUE_ENABLED", "QUEUE_BACKEND", "REDIS_URL", "CELERY_BROKER_URL"]
  {
  }

  lemma BrokerVariables(env: map<string, string>, redis: string)
    ensures
      var has := WithUpdates(env, SwitchUpdates(Celery, redis));
      && "CELERY_BROKER_URL" in has && has["CELERY_BROKER_URL"] == redis
      && "REDIS_URL" in has && has["REDIS_URL"] == redis
      && "QUEUE_ENABLED" in has && has["QUEUE_ENABLED"] == "true"
      && "QUEUE_BACKEND" in has && has["QUEUE_BACKEND"] == "celery"
      && forall k :: k !in QueueKeys() ==> SameIn(env, has, k)
  {
    var updates := SwitchUpdates(Celery, redis);
    KeysAreWritable(Celery, redis);
    BrokerSettings(redis);
    assert Distinct(updates);
    hide *;
    UpdatesAreSet(env, updates, 0);
    UpdatesAreSet(env, updates, 1);
    UpdatesAreSet(env, updates, 2);
    UpdatesAreSet(env, updates, 3);
    forall k | k !in QueueKeys()
      ensures SameIn(env, WithUpdates(env, updates), k)
    {
      OthersStay(env, updates, k);
    }
  }

  lemma BrokerReadsBack(text: string, env: map<string, string>, redis: string)
    requires OneLine(redis) && Stripped(redis) && redis != []
    ensures
      var after, has := Written(text, SwitchUpdates(Celery, redis)), WithUpdates(env, SwitchUpdates(Celery, redis));
      && (forall k :: k in QueueKeys() ==> k in has && Holds(has, after, k, has[k]))
      && forall k :: Name(k) && k !in QueueKeys() ==> ReadKey(after, k) == ReadKey(text, k)
  {
    var updates := SwitchUpdates(Celery, redis);
    KeysAreWritable(Celery, redis);
    BrokerSettings(redis);
    BrokerVariables(env, redis);
    assert Stripped("true") && Stripped("celery");
    hide *;
    SettingHolds(text, env, updates, 0);
    SettingHolds(text, env, updates, 1);
    SettingHolds(text, env, updates, 2);
    SettingHolds(text, env, updates, 3);
    forall k | Name(k) && k !in QueueKeys()
      ensures ReadKey(Written(text, updates), k) == ReadKey(text, k)
    {
      OtherKeysReadAsBefore(text, updates, k);
    }
  }

  lemma BrokerTold(text: string, env: map<string, string>, url: string)
    ensures
      var updates := SwitchUpdates(Celery, Chosen(text, url));
      && RunsThrough(url, text, Written(text, updates), env, WithUpdates(env, updates))
      && WithUpdates(env, updates)["CELERY_BROKER_URL"] == Chosen(text, url)
  {
    hide SwitchUpdates, Written, WithUpdates, Chosen, GivenOrSaved, OneLine, Holds, SameIn, Name, ReadKey, QueueKeys;
    var redis := Chosen(text, url);
    ChosenIsGivenOrSaved(text, url);
    BrokerVariables(env, redis);
    if OneLine(redis) {
      BrokerReadsBack(text, env, redis);
    }
  }

  /** What a switch that meets no fault leaves behind. */
  lemma SwitchTold(w: World, backend: string, url: string, text: string, env: map<string, string>)
    requires MaySwitch(w, text, backend, url) && Smooth(w, Target(backend).value)
    ensures
      var updates := SwitchUpdates(Target(backend).value, Chosen(text, url));
      SwitchedTo(w, backend, url, text, Written(text, updates), env, WithUpdates(env, updates))
  {
    hide SwitchUpdates, Written, WithUpdates, Chosen, RunsLocally, RunsThrough, Lower, Strip;
    LocalTold(text, env, Chosen(text, url));
    BrokerTold(text, env, url);
  }

  /** Nothing speaks against a switch: the queue is idle and manageable, and a broker allowed and there. */
  predicate NothingAgainst(w: World, text: string, backend: string, url: string) {
    && w.managed && w.lockFree && w.active == Some(0) && w.settings.Some? && w.fileReadable
    && (Lower(Strip(backend)) == "local" ||
        (Lower(Strip(backend)) == "celery" && w.reachable && w.allowed(Chosen(text, url))))
  }

  lemma MayWhenNothingAgainst(w: World, text: string, backend: string, url: string)
    ensures NothingAgainst(w, text, backend, url) ==> MaySwitch(w, text, backend, url)
  {
    hide Chosen, Lower, Strip;
  }

  lemma LocalParts(before: string, after: string, had: map<string, string>, has: map<string, string>)
    requires Holds(has, after, "QUEUE_ENABLED", "true") && Holds(has, after, "QUEUE_BACKEND", "local")
    requires forall k :: k != "QUEUE_ENABLED" && k != "QUEUE_BACKEND" ==> SameIn(had, has, k)
    requires forall k :: Name(k) && k != "QUEUE_ENABLED" && k != "QUEUE_BACKEND" ==>
               ReadKey(after, k) == ReadKey(before, k)
    ensures RunsLocally(before, after, had, has)
  {
    hide Holds, SameIn, ReadKey, Name;
  }

  class QueueRuntimeService {
    const file: ManagedFile
    var env: map<string, string>

    constructor (file: ManagedFile, env: map<string, string>)
      ensures this.file == file && this.env == env
    {
      this.file, this.env := file, env;
    }

    method ApplyProcessEnv(updates: Updates, fault: Option<nat>) returns (ok: bool)
      modifies this
      ensures ok <==> fault.None? || fault.value >= |updates|
      ensures ok ==> env == WithUpdates(old(env), updates)
      ensures exists n :: 0 <= n <= |updates| && env == WithUpdates(old(env), updates[..n])
    {
      assert updates[..0] == [] && updates[..|updates|] == updates;
      for i := 0 to |updates|
        invariant env == WithUpdates(old(env), updates[..i]) && (fault.None? || fault.value >= i)
      {
        if fault == Some(i) {
          return false;
        }
        env := env[updates[i].0 := updates[i].1];
        assert updates[..i + 1][..i] == updates[..i];
      }
      ok := true;
    }

    /** Put every saved variable back: set it again, or remove it if it was not set. */
    method RestoreProcessEnv(saved: map<string, Option<string>>, keys: seq<string>)
      requires saved.Keys == set k | k in keys
      modifies this
      ensures forall k :: k in keys ==> if saved[k].Some? then k in env && env[k] == saved[k].value else k !in env
      ensures forall k :: k !in keys ==> (k in env <==> k in old(env))
      ensures forall k :: k !in keys && k in env ==> env[k] == old(env)[k]
    {
      for i := 0 to |keys|
        invariant forall k :: k in keys[..i] ==> if saved[k].Some? then k in env && env[k] == saved[k].value
                                                 else k !in env
        invariant forall k :: k !in keys[..i] ==> (k in env <==> k in old(env))
        invariant forall k :: k !in keys[..i] && k in env ==> env[k] == old(env)[k]
      {
        assert keys[..i + 1] == keys[..i] + [keys[i]];
        env := if saved[keys[i]].Some? then env[keys[i] := saved[keys[i]].value] else env - {keys[i]};
      }
    }

    method SavedUrl() returns (url: Option<string>)
      ensures url == SavedRedis(file.text)
    {
      url := file.ReadValue(BROKER);
      if url.None? {
        url := file.ReadValue(REDIS);
      }
    }

    /** The given URL, else the saved one, else the local default. */
    method ChooseUrl(url: string) returns (redis: string)
      ensures redis == Chosen(file.text, url)
    {
      hide SavedRedis, Strip;
      if Strip(url) != [] {
        return Strip(url);
      }
      var saved := SavedUrl();
      redis := if saved.Some? then Strip(saved.value) else DEFAULT_REDIS;
    }

    /** The checks before anything is written. */
    method Check(w: World, backend: string, url: string) returns (refusal: Option<nat>, target: Backend, redis: string)
      ensures refusal.None? <==> MaySwitch(w, file.text, backend, url)
      ensures refusal.None? ==> Target(backend) == Some(target) &&
                                (target == Celery ==> redis == Chosen(file.text, url))
      ensures refusal == Some(400) <==>
                Target(backend).None? ||
                (w.managed && w.lockFree && w.active == Some(0) && w.settings.Some? &&
                 Target(backend) == Some(Celery) && !w.allowed(Chosen(file.text, url)))
      ensures refusal == Some(500) <==>
                Target(backend).Some? && w.managed && w.lockFree &&
                (w.active.None? || (w.active == Some(0) && w.settings.None?))
      ensures refusal.Some? ==> refusal.value in {400, 409, 500}
    {
      hide Target, Chosen;
      target, redis := Local, "";
      var wanted := Target(backend);
      if wanted.None? {
        return Some(400), target, redis;
      }
      target := wanted.value;
      if !w.managed || !w.lockFree {
        return Some(409), target, redis;
      }
      if w.active.None? {
        return Some(500), target, redis;
      }
      if w.active.value > 0 {
        return Some(409), target, redis;
      }
      if w.settings.None? {
        return Some(500), target, redis;
      }
      if target == Celery {
        redis := ChooseUrl(url);
        if !w.allowed(redis) {
          return Some(400), target, redis;
        }
        if !w.reachable {
          return Some(409), target, redis;
        }
      }
      refusal := if w.fileReadable then None else Some(409);
    }

    /** Write the file, then the process environment, then restart and look again. When it stops short,
        the file is as before or fully written, and the environment holds some of the updates. */
    method Apply(w: World, target: Backend, updates: Updates) returns (ok: bool)
      modifies this, file
      ensures ok <==> !w.writeFault && (w.applyFault.None? || w.applyFault.value >= |updates|) && !w.restartFault &&
                      (target == Celery ==> w.stillReachable)
      ensures ok ==> file.text == Written(old(file.text), updates) && env == WithUpdates(old(env), updates)
      ensures exists n :: 0 <= n <= |updates| && env == WithUpdates(old(env), updates[..n])
    {
      assert updates[..0] == [];
      if w.writeFault {
        return false;
      }
      file.WriteValues(updates);
      var applied := ApplyProcessEnv(updates, w.applyFault);
      ok := applied && !w.restartFault && (target == Celery ==> w.stillReachable);
    }

    /** Put the saved text and variables back, then restart the previous topology. */
    method Undo(w: World, text: string, saved: map<string, Option<string>>) returns (ok: bool)
      requires saved.Keys == set k | k in QueueKeys()
      modifies this, file
      ensures ok <==> !w.undoWriteFault && !w.undoRestartFault
      ensures !w.undoWriteFault ==>
                && file.text == text
                && (forall k :: k in QueueKeys() ==> if saved[k].Some? then k in env && env[k] == saved[k].value
                                                     else k !in env)
                && (forall k :: k !in QueueKeys() ==> (k in env <==> k in old(env)))
                && (forall k :: k !in QueueKeys() && k in env ==> env[k] == old(env)[k])
    {
      if w.undoWriteFault {
        return false;
      }
      file.text := text;
      RestoreProcessEnv(saved, QueueKeys());
      ok := !w.undoRestartFault;
    }

    /** A refused switch changes nothing, and it is refused exactly when a condition fails. A switch that
        fails later and reports the previous backend restored leaves the file and every variable exactly
        as they were. A switch that works has written the chosen settings to both. */
    method SwitchBackend(w: World, backend: string, url: string) returns (result: Result)
      modifies this, file
      ensures result.Refused? <==> !MaySwitch(w, old(file.text), backend, url)
      ensures result.Refused? || result.Restored? ==> file.text == old(file.text) && env == old(env)
      ensures NothingAgainst(w, old(file.text), backend, url) ==> !result.Refused?
      ensures result.Switched? || result.SummaryFailed? ==>
                SwitchedTo(w, backend, url, old(file.text), file.text, old(env), env)
      ensures result.Broken? ==> w.undoWriteFault || w.undoRestartFault
      ensures result.Broken? && !w.undoWriteFault ==> file.text == old(file.text) && env == old(env)
      ensures result.Switched? || result.SummaryFailed? ==>
                var target := Target(backend).value;
                var updates := SwitchUpdates(target, Chosen(old(file.text), url));
                Smooth(w, target) && file.text == Written(old(file.text), updates) &&
                env == WithUpdates(old(env), updates)
      ensures MaySwitch(w, old(file.text), backend, url) && Smooth(w, Target(backend).value) ==>
                result == if w.summaryFault then SummaryFailed else Switched
      ensures MaySwitch(w, old(file.text), backend, url) && !Smooth(w, Target(backend).value) ==>
                result == if w.undoWriteFault || w.undoRestartFault then Broken else Restored
    {
      hide Written, WithUpdates, MaySwitch, SwitchUpdates, Target, Chosen, Writable, AllValuesOneLine, QueueKeys;
      hide SwitchedTo, NothingAgainst;
      MayWhenNothingAgainst(w, file.text, backend, url);
      var refusal, target, redis := Check(w, backend, url);
      if refusal.Some? {
        return Refused(refusal.value);
      }
      var text := file.text;
      var saved := Snapshot(env, QueueKeys());
      var updates := SwitchUpdates(target, redis);
      KeysAreWritable(target, redis);
      LocalIgnoresTheUrl(target, redis, "");
      LocalIgnoresTheUrl(target, redis, Chosen(text, url));
      var ok := Apply(w, target, updates);
      if !ok {
        Untouched(old(env), env, updates);
        var undone := Undo(w, text, saved);
        return if undone then Restored else Broken;
      }
      SwitchTold(w, backend, url, text, old(env));
      result := if w.summaryFault then SummaryFailed else Switched;
    }
  }

  /** However far the updates came, only the four queue variables can differ. */
  lemma Untouched(before: map<string, string>, after: map<string, string>, updates: Updates)
    requires forall i :: 0 <= i < |updates| ==> updates[i].0 in QueueKeys()
    requires exists n :: 0 <= n <= |updates| && after == WithUpdates(before, updates[..n])
    ensures forall k :: k !in QueueKeys() ==> (k in after <==> k in before)
    ensures forall k :: k !in QueueKeys() && k in after ==> after[k] == before[k]
  {
    var n :| 0 <= n <= |updates| && after == WithUpdates(before, updates[..n]);
    forall k | k !in QueueKeys()
      ensures k in after <==> k in before
      ensures k in before ==> after[k] == before[k]
    {
      UpdatesStayWithin(before, updates[..n], (set x | x in QueueKeys()), k);
    }
  }

  lemma LocalIgnoresTheUrl(target: Backend, a: string, b: string)
    ensures |SwitchUpdates(target, a)| == |SwitchUpdates(target, b)|
    ensures target == Local ==> SwitchUpdates(target, a) == SwitchUpdates(target, b)
  {
  }

  // ----- what a switch remembers

  lemma KeysAreNames()
    ensures EnvFile.Name(ENABLED) && EnvFile.Name(BACKEND) && EnvFile.Name(REDIS) && EnvFile.Name(BROKER)
  {
  }

  lemma KeysDiffer()
    ensures ENABLED != BACKEND && ENABLED != REDIS && ENABLED != BROKER
    ensures BACKEND != REDIS && BACKEND != BROKER && REDIS != BROKER
  {
    assert ENABLED[0] == 'Q' && BACKEND[0] == 'Q' && REDIS[0] == 'R' && BROKER[0] == 'C';
  }

  lemma FixedValuesAreOneLine()
    ensures OneLine("true") && OneLine("local") && OneLine("celery")
  {
  }

  lemma KeysAreWritable(target: Backend, redis: string)
    ensures Writable(SwitchUpdates(target, redis))
    ensures OneLine(redis) || target == Local ==> AllValuesOneLine(SwitchUpdates(target, redis))
    ensures forall i :: 0 <= i < |SwitchUpdates(target, redis)| ==> SwitchUpdates(target, redis)[i].0 in QueueKeys()
  {
    KeysAreNames();
    KeysDiffer();
    FixedValuesAreOneLine();
    hide OneLine, EnvFile.Name;
  }

  lemma BrokerUpdates(redis: string)
    ensures |SwitchUpdates(Celery, redis)| == 4
    ensures SwitchUpdates(Celery, redis)[1] == (BACKEND, "celery") && SwitchUpdates(Celery, redis)[3] == (BROKER, redis)
  {
  }

  /** After a switch to the broker, the file gives a one-line URL back, and the backend with it. */
  lemma OneLineUrlIsRemembered(text: string, redis: string)
    requires OneLine(redis) && Stripped(redis) && redis != []
    ensures SavedRedis(Written(text, SwitchUpdates(Celery, redis))) == Some(redis)
    ensures ReadKey(Written(text, SwitchUpdates(Celery, redis)), BACKEND) == Some("celery")
  {
    var updates := SwitchUpdates(Celery, redis);
    KeysAreWritable(Celery, redis);
    BrokerUpdates(redis);
    StripStripped(redis);
    StripStripped("celery");
    assert Shown(redis) == Some(redis) && Shown("celery") == Some("celery");
    hide Written, ReadKey, Strip, Shown, Writable, AllValuesOneLine, SwitchUpdates, OneLine, Stripped;
    UpdatedKeyReadsBack(text, updates, 3);
    UpdatedKeyReadsBack(text, updates, 1);
  }

  lemma SavedIsOneLine(text: string)
    ensures SavedRedis(text).Some? ==> OneLine(SavedRedis(text).value)
  {
    SplitLinesAreOneLine(text);
    ReadLinesIsOneLine(SplitLines(text), BROKER);
    ReadLinesIsOneLine(SplitLines(text), REDIS);
  }

  /** After a switch to the broker, the file gives its URL back as the saved one if and only if the URL holds
      no line break. */
  lemma BrokerUrlIsRemembered(text: string, redis: string)
    requires Stripped(redis) && redis != []
    ensures SavedRedis(Written(text, SwitchUpdates(Celery, redis))) == Some(redis) <==> OneLine(redis)
  {
    hide Written, SavedRedis, SwitchUpdates;
    if OneLine(redis) {
      OneLineUrlIsRemembered(text, redis);
    } else {
      SavedIsOneLine(Written(text, SwitchUpdates(Celery, redis)));
    }
  }

  /** What the validation of a URL looks at: parsing drops tabs and line breaks first, but the URL that is
      handed on keeps them. */
  function Parsed(url: string): string {
    if url == [] then []
    else if url[0] == '\t' || url[0] == '\r' || url[0] == '\n' then Parsed(url[1..])
    else [url[0]] + Parsed(url[1..])
  }

  const SPLIT_URL := "redis://127.0.0.1:63\n79/0"

  lemma SplitUrlParses()
    ensures Parsed(SPLIT_URL) == DEFAULT_REDIS
  {
    var head, tail := "redis://127.0.0.1:63", "79/0";
    assert SPLIT_URL == head + ("\n" + tail) && DEFAULT_REDIS == head + tail;
    ParsedPlain(head, "\n" + tail);
    assert ("\n" + tail)[0] == '\n' && ("\n" + tail)[1..] == tail;
    ParsedPlain(tail, "");
    assert tail + "" == tail && Parsed("") == "";
  }

  lemma ParsedNext(url: string)
    requires url != [] && url[0] !in {'\t', '\r', '\n'}
    ensures Parsed(url) == [url[0]] + Parsed(url[1..])
  {
  }

  lemma {:induction false} ParsedPlain(head: string, tail: string)
    requires forall i :: 0 <= i < |head| ==> head[i] !in {'\t', '\r', '\n'}
    ensures Parsed(head + tail) == head + Parsed(tail)
  {
    if head == [] {
      assert head + tail == tail;
    } else {
      var rest := head[1..];
      ParsedPlain(rest, tail);
      var s := head + tail;
      assert s[0] == head[0] && s[1..] == rest + tail;
      ParsedNext(s);
      assert [head[0]] + (rest + Parsed(tail)) == [head[0]] + rest + Parsed(tail) && head == [head[0]] + rest;
    }
  }

  /** So wherever the default URL is accepted, a switch to this one is too: it succeeds, and the file
      does not give its URL back. */
  lemma SwitchCanForgetItsUrl(w: World, text: string, backend: string)
    requires forall u :: w.allowed(u) == w.allowed(Parsed(u))
    requires MaySwitch(w, text, backend, DEFAULT_REDIS) && Target(backend) == Some(Celery)
    ensures MaySwitch(w, text, backend, SPLIT_URL) && Chosen(text, SPLIT_URL) == SPLIT_URL
    ensures SavedRedis(Written(text, SwitchUpdates(Celery, SPLIT_URL))) != Some(SPLIT_URL)
  {
    hide *;
    DefaultUrlIsPlain();
    GivenUrlIsChosen(text, DEFAULT_REDIS);
    GivenUrlIsChosen(text, SPLIT_URL);
    SplitUrlParses();
    assert w.allowed(SPLIT_URL) == w.allowed(Parsed(SPLIT_URL));
    MaySwitchByUrl(w, text, backend);
    SplitUrlHasABreak();
    BrokerUrlIsRemembered(text, SPLIT_URL);
  }

  lemma GivenUrlIsChosen(text: string, url: string)
    requires Stripped(url) && url != []
    ensures Chosen(text, url) == url
  {
    hide SavedRedis;
    StripStripped(url);
  }

  lemma MaySwitchByUrl(w: World, text: string, backend: string)
    requires Chosen(text, DEFAULT_REDIS) == DEFAULT_REDIS && Chosen(text, SPLIT_URL) == SPLIT_URL
    requires w.allowed(SPLIT_URL) == w.allowed(DEFAULT_REDIS) && MaySwitch(w, text, backend, DEFAULT_REDIS)
    ensures MaySwitch(w, text, backend, SPLIT_URL)
  {
    hide Chosen, Target;
  }

  lemma SplitUrlHasABreak()
    ensures !OneLine(SPLIT_URL)
  {
    assert LineBreak(SPLIT_URL[20]);
  }

  lemma DefaultUrlIsPlain()
    ensures Stripped(DEFAULT_REDIS) && DEFAULT_REDIS != [] && Stripped(SPLIT_URL) && SPLIT_URL != []
  {
  }

  /** A switch back to local keeps the saved URL for the next time. */
  lemma LocalKeepsTheBrokerUrl(text: string)
    ensures SavedRedis(Written(text, SwitchUpdates(Local, ""))) == SavedRedis(text)
    ensures ReadKey(Written(text, SwitchUpdates(Local, "")), BACKEND) == Some("local")
  {
    var updates := SwitchUpdates(Local, "");
    KeysAreWritable(Local, "");
    KeysAreNames();
    KeysDiffer();
    StripStripped("local");
    assert |updates| == 2 && updates[0].0 == ENABLED && updates[1] == (BACKEND, "local") &&
           Shown("local") == Some("local");
    hide Written, ReadKey, Strip, Shown, Writable, AllValuesOneLine, SwitchUpdates, OneLine, Stripped, EnvFile.Name;
    OtherKeysReadAsBefore(text, updates, BROKER);
    OtherKeysReadAsBefore(text, updates, REDIS);
    UpdatedKeyReadsBack(text, updates, 1);
  }
}
