/**
 Token persistence: atomic file replacement under crashes, and the token source
 that uses it.
 */
module TokenStore {
  import opened Basics

  /******* Files *******/

  /** What a file reads as: a value written completely, or anything less. */
  datatype Content<T> = Whole(value: T) | Torn

  /** A file's content and whether it has reached the disk. */
  datatype Inode<T> = Inode(content: Content<T>, synced: bool)

  /** One directory entry and the files behind it. `entry` is the file the path
      names now. `durable` are the files the path may name after a crash: the
      directory is only certain once synced. `temp` is the file under
      the temporary name, and `leftovers` counts such names never removed. */
  datatype Disk<T> = Disk(inodes: seq<Inode<T>>, entry: Option<nat>, durable: set<Option<nat>>, temp: Option<nat>,
                          leftovers: nat)

  ghost predicate DiskOk<T>(d: Disk<T>) {
    && (d.entry.Some? ==> d.entry.value < |d.inodes|)
    && d.entry in d.durable
    && (forall e :: e in d.durable && e.Some? ==> e.value < |d.inodes|)
    && (d.temp.Some? ==> d.temp.value < |d.inodes| && d.temp != d.entry && d.temp !in d.durable)
  }

  /** What the path reads as now, None when there is no file. */
  function Reads<T>(d: Disk<T>): Option<Content<T>> {
    if d.entry.Some? && d.entry.value < |d.inodes| then Some(d.inodes[d.entry.value].content) else None
  }

  /** What file `e` reads as after a crash: one never synced may have lost any
      of its content. */
  function CrashRead<T>(d: Disk<T>, e: Option<nat>, lost: bool): Option<Content<T>> {
    if e.None? || e.value >= |d.inodes| then None
    else if lost && !d.inodes[e.value].synced then Some(Torn)
    else Some(d.inodes[e.value].content)
  }

  /** What the path may read as after a crash. */
  ghost predicate MayRead<T(!new)>(d: Disk<T>, r: Option<Content<T>>) {
    exists e, lost :: e in d.durable && r == CrashRead(d, e, lost)
  }

  /** The steps of a replacement, each of which may fail. */
  datatype Step = CreateTemp | Chmod | WriteData | SyncData | CloseFile | Rename | SyncDir

  /** `data` reaches the temporary file, not necessarily all of it. */
  function Filled<T>(d: Disk<T>, content: Content<T>): Disk<T> {
    if d.temp.Some? && d.temp.value < |d.inodes| then
      d.(inodes := d.inodes[d.temp.value := Inode(content, false)])
    else d
  }

  function Flushed<T>(d: Disk<T>): Disk<T> {
    if d.temp.Some? && d.temp.value < |d.inodes| then
      d.(inodes := d.inodes[d.temp.value := d.inodes[d.temp.value].(synced := true)])
    else d
  }

  /** The path names the temporary file now, and after a crash either file. */
  function Renamed<T>(d: Disk<T>): Disk<T> {
    d.(entry := d.temp, durable := d.durable + {d.temp}, temp := None)
  }

  /** After a crash anywhere along the way the path reads as it might have
      before, or as all of the new data. */
  ghost predicate OldOrNew<T(!new)>(before: Disk<T>, d: Disk<T>, data: T) {
    && DiskOk(d)
    && (forall r :: MayRead(d, r) ==> MayRead(before, r) || r == Some(Whole(data)))
    && (Reads(d) == Reads(before) || Reads(d) == Some(Whole(data)))
  }

  /** The new file is being prepared under the temporary name. */
  ghost predicate Staged<T>(before: Disk<T>, d: Disk<T>, file: Inode<T>) {
    d == before.(inodes := before.inodes + [file], temp := Some(|before.inodes|))
  }

  lemma StagedIsOld<T(!new)>(before: Disk<T>, d: Disk<T>, file: Inode<T>, data: T, leftovers: nat)
    requires DiskOk(before) && before.temp.None? && Staged(before, d, file)
    ensures OldOrNew(before, d, data)
    ensures OldOrNew(before, d.(temp := None, leftovers := leftovers), data)
    ensures Reads(d.(temp := None, leftovers := leftovers)) == Reads(before)
  {
    forall r | MayRead(d, r)
      ensures MayRead(before, r)
    {
      var e, lost :| e in d.durable && r == CrashRead(d, e, lost);
      assert r == CrashRead(before, e, lost);
    }
    forall r | MayRead(d.(temp := None, leftovers := leftovers), r)
      ensures MayRead(d, r)
    {
      var next := d.(temp := None, leftovers := leftovers);
      var e, lost :| e in next.durable && r == CrashRead(next, e, lost);
      assert r == CrashRead(d, e, lost);
    }
  }

  /** Once renamed, a synced file is all there, whichever file a crash leaves;
      with the directory synced, only the new one is left. */
  lemma RenamedIsOldOrNew<T(!new)>(before: Disk<T>, d: Disk<T>, data: T)
    requires DiskOk(before) && before.temp.None? && Staged(before, d, Inode(Whole(data), true))
    ensures OldOrNew(before, Renamed(d), data)
    ensures OldOrNew(before, Renamed(d).(durable := {d.temp}), data)
    ensures Reads(Renamed(d)) == Some(Whole(data))
    ensures forall r :: MayRead(Renamed(d).(durable := {d.temp}), r) ==> r == Some(Whole(data))
  {
    var after := Renamed(d);
    forall r | MayRead(after, r)
      ensures MayRead(before, r) || r == Some(Whole(data))
    {
      var e, lost :| e in after.durable && r == CrashRead(after, e, lost);
      assert e != d.temp ==> r == CrashRead(before, e, lost);
    }
    forall r | MayRead(after.(durable := {d.temp}), r)
      ensures r == Some(Whole(data))
    {
    }
  }

  /******* One file-system step *******/

  /** File `i` gets new content: less than a whole value at once, and a whole
      value only where there was less. It has not reached the disk yet. */
  ghost predicate WritesTo<T(!new)>(d: Disk<T>, next: Disk<T>, i: nat) {
    && i < |d.inodes|
    && exists content: Content<T> {:trigger Inode(content, false)} ::
         (content.Torn? || d.inodes[i].content.Torn?)
         && next == d.(inodes := d.inodes[i := Inode(content, false)])
  }

  /** What file `i` holds reaches the disk. */
  ghost predicate Syncs<T>(d: Disk<T>, next: Disk<T>, i: nat) {
    i < |d.inodes| && next == d.(inodes := d.inodes[i := d.inodes[i].(synced := true)])
  }

  /** What one system call, or a part of one, does to the disk. Any file may be
      written or truncated in place, the one the path names included. */
  ghost predicate OneStep<T(!new)>(d: Disk<T>, next: Disk<T>) {
    || next == d // a change of mode, a close, a call that fails
    || next == d.(inodes := d.inodes + [Inode(Torn, false)], temp := Some(|d.inodes|)) // a new temporary file
    || (exists i: nat :: WritesTo(d, next, i))
    || (exists i: nat :: Syncs(d, next, i))
    || (d.temp.Some? && next == Renamed(d))
    || next == d.(durable := {d.entry}) // the directory is synced
    || next == d.(entry := None, durable := d.durable + {None}) // the path is removed
    || next == d.(temp := None) // the temporary file is removed
    || (d.temp.Some? && next == d.(temp := None, leftovers := d.leftovers + 1)) // or left for good
  }

  ghost predicate StepAt<T(!new)>(trail: seq<Disk<T>>, i: int) {
    0 < i < |trail| && OneStep(trail[i - 1], trail[i])
  }

  /** Each state is one step after the state before it. */
  ghost predicate Stepwise<T(!new)>(trail: seq<Disk<T>>) {
    forall i :: 0 < i < |trail| ==> StepAt(trail, i)
  }

  /** The states along the way, one step apart, each of which a crash may end. */
  ghost predicate Trail<T(!new)>(before: Disk<T>, data: T, trail: seq<Disk<T>>, d: Disk<T>) {
    && trail != [] && trail[0] == before && trail[|trail| - 1] == d
    && Stepwise(trail)
    && forall i :: 0 <= i < |trail| ==> OldOrNew(before, trail[i], data)
  }

  lemma TrailNext<T(!new)>(before: Disk<T>, data: T, trail: seq<Disk<T>>, d: Disk<T>, next: Disk<T>)
    requires Trail(before, data, trail, d) && OldOrNew(before, next, data) && OneStep(d, next)
    ensures Trail(before, data, trail + [next], next)
  {
    hide OldOrNew, OneStep;
    forall i | 0 < i < |trail + [next]|
      ensures StepAt(trail + [next], i)
    {
      assert i < |trail| ==> StepAt(trail, i);
    }
  }

  lemma TrailBegins<T(!new)>(before: Disk<T>, data: T)
    requires DiskOk(before)
    ensures Trail(before, data, [before], before)
  {
  }

  lemma FillingIsAStep<T(!new)>(d: Disk<T>, content: Content<T>)
    requires d.temp.Some? && d.temp.value < |d.inodes| && d.inodes[d.temp.value].content.Torn?
    ensures OneStep(d, Filled(d, content))
  {
    assert Inode(content, false).content == content;
    assert WritesTo(d, Filled(d, content), d.temp.value);
  }

  lemma FlushingIsAStep<T(!new)>(d: Disk<T>)
    requires d.temp.Some? && d.temp.value < |d.inodes|
    ensures OneStep(d, Flushed(d))
  {
    assert Syncs(d, Flushed(d), d.temp.value);
  }

  lemma SevenSteps(fault: Option<Step>)
    ensures fault in {None, Some(CreateTemp), Some(Chmod), Some(WriteData), Some(SyncData), Some(CloseFile),
                      Some(Rename), Some(SyncDir)}
  {
    match fault
    case None =>
    case Some(CreateTemp) =>
    case Some(Chmod) =>
    case Some(WriteData) =>
    case Some(SyncData) =>
    case Some(CloseFile) =>
    case Some(Rename) =>
    case Some(SyncDir) =>
  }

  /** The steps in order, up to the one that fails. */
  method Replace<T(!new)>(before: Disk<T>, data: T, fault: Option<Step>)
    returns (failed: Option<Step>, d: Disk<T>, trail: seq<Disk<T>>)
    requires DiskOk(before) && before.temp.None?
    ensures Trail(before, data, trail, d)
    ensures failed == fault
    ensures failed == Some(SyncDir) ==> Reads(d) == Some(Whole(data))
    ensures failed.None? ==> Reads(d) == Some(Whole(data)) && forall r :: MayRead(d, r) ==> r == Some(Whole(data))
    ensures failed.None? || failed == Some(SyncDir) ==> d.temp.None? && d.leftovers == before.leftovers
    ensures d.temp.None? ==> DiskOk(d)
    ensures failed.Some? && failed != Some(SyncDir) ==> d == before || exists file :: Staged(before, d, file)
  {
    hide MayRead, OldOrNew, Trail, WritesTo, Syncs;
    d := before;
    trail := [d];
    TrailBegins(before, data);
    if fault == Some(CreateTemp) {
      return fault, d, trail;
    }
    d := d.(inodes := d.inodes + [Inode(Torn, false)], temp := Some(|d.inodes|));
    StagedIsOld(before, d, Inode(Torn, false), data, 0);
    TrailNext(before, data, trail, before, d);
    trail := trail + [d];
    assert Staged(before, d, Inode(Torn, false));
    if fault == Some(Chmod) {
      return fault, d, trail;
    }
    ghost var last := d;
    var content := if fault == Some(WriteData) then Torn else Whole(data);
    d := Filled(d, content);
    FillingIsAStep(last, content);
    assert Staged(before, d, Inode(content, false));
    StagedIsOld(before, d, Inode(content, false), data, 0);
    TrailNext(before, data, trail, last, d);
    trail := trail + [d];
    if fault == Some(WriteData) || fault == Some(SyncData) {
      return fault, d, trail;
    }
    last := d;
    d := Flushed(d);
    FlushingIsAStep(last);
    assert Staged(before, d, Inode(Whole(data), true));
    StagedIsOld(before, d, Inode(Whole(data), true), data, 0);
    TrailNext(before, data, trail, last, d);
    trail := trail + [d];
    if fault == Some(CloseFile) || fault == Some(Rename) {
      return fault, d, trail;
    }
    last := d;
    RenamedIsOldOrNew(before, last, data);
    d := Renamed(d);
    TrailNext(before, data, trail, last, d);
    trail := trail + [d];
    if fault == Some(SyncDir) {
      return fault, d, trail;
    }
    ghost var renamed := d;
    d := d.(durable := {d.entry});
    TrailNext(before, data, trail, renamed, d);
    trail := trail + [d];
    failed := fault;
    SevenSteps(fault);
  }

  /** Replaces the file at the path, and then removes the temporary file if one
      is left, best effort. `trail` are the states of the disk along the way,
      `fault` is the step that fails, if any. */
  method Write<T(!new)>(before: Disk<T>, data: T, fault: Option<Step>, removes: bool)
    returns (failed: Option<Step>, d: Disk<T>, trail: seq<Disk<T>>)
    requires DiskOk(before) && before.temp.None?
    // Each crash point yields the old or the new contents.
    ensures Trail(before, data, trail, d)
    // A nil return survives a crash.
    ensures failed.None? ==> Reads(d) == Some(Whole(data)) && forall r :: MayRead(d, r) ==> r == Some(Whole(data))
    // A failure before the rename leaves the file alone.
    ensures failed.Some? && failed != Some(SyncDir) ==> Reads(d) == Reads(before) && d.durable == before.durable
    ensures failed == fault
    // A failure after it does not take the new data back.
    ensures failed == Some(SyncDir) ==> Reads(d) == Some(Whole(data))
    // No temporary file is left, unless removing it failed too.
    ensures d.temp.None? && DiskOk(d)
    ensures removes || failed.None? || failed == Some(SyncDir) ==> d.leftovers == before.leftovers
  {
    hide MayRead, OldOrNew, Trail, Reads, WritesTo, Syncs;
    failed, d, trail := Replace(before, data, fault);
    if d.temp.Some? {
      ghost var last := d;
      ghost var file :| Staged(before, d, file);
      d := d.(temp := None, leftovers := d.leftovers + if removes then 0 else 1);
      StagedIsOld(before, last, file, data, d.leftovers);
      TrailNext(before, data, trail, last, d);
      trail := trail + [d];
    }
  }

  /******* Tokens *******/

  datatype Token = Token(access: string, refresh: string, expiry: int)

  /** Whether anything worth writing back differs. */
  predicate TokenChanged(last: Option<Token>, tok: Token) {
    || last.None?
    || last.value.access != tok.access
    || last.value.expiry != tok.expiry
    || (tok.refresh != "" && tok.refresh != last.value.refresh)
  }

  /** The token to write back: a missing refresh token is taken from the last one. */
  function ToSave(last: Option<Token>, tok: Token): Token {
    if tok.refresh == "" && last.Some? && last.value.refresh != "" then tok.(refresh := last.value.refresh) else tok
  }

  /** What one event of the daemon's life is: a call, or a call in the middle
      of which, or after which, the machine crashes and the daemon restarts. */
  datatype Life = Call(inner: Result<Token, string>, fault: Option<Step>, removes: bool)
                | Crash(inner: Result<Token, string>, fault: Option<Step>, removes: bool, at: nat)

  /** What is remembered and what the file reads as. */
  datatype Mem = Mem(last: Option<Token>, file: Option<Content<Token>>)

  /** The step that fails, if any, comes after the rename. */
  predicate Reaches(fault: Option<Step>) {
    fault.None? || fault == Some(SyncDir)
  }

  /** One call: a changed token is written back, and remembered only when the
      whole write went well. */
  function After(m: Mem, inner: Result<Token, string>, fault: Option<Step>): Mem {
    if inner.Err? || !TokenChanged(m.last, inner.value) then m
    else
      var toSave := ToSave(m.last, inner.value);
      Mem(if fault.None? then Some(toSave) else m.last, if Reaches(fault) then Some(Whole(toSave)) else m.file)
  }

  /** Memory and file hold the same token, or nothing is remembered. */
  predicate Agree(m: Mem) {
    m.last.None? || m.file == Some(Whole(m.last.value))
  }

  /** The response says nothing new: the same access token and expiry, and no
      other refresh token. */
  predicate NothingNew(last: Token, tok: Token) {
    last.access == tok.access && last.expiry == tok.expiry && (tok.refresh == "" || tok.refresh == last.refresh)
  }

  /** What one call comes to, by the tokens' fields. A response that writes well,
      or says nothing new, leaves its access token and expiry in memory and on
      file, with its refresh token if it has one and the remembered one if not.
      Nothing is written when nothing is new. A write that fails before the
      rename changes nothing, and one whose directory sync fails puts the token
      on file without remembering it. */
  lemma OneCallByFields(m: Mem, tok: Token, fault: Option<Step>)
    ensures var now := After(m, Ok(tok), fault);
      && (Agree(m) && fault.None? ==>
            && now.last.Some? && now.file == Some(Whole(now.last.value))
            && now.last.value.access == tok.access && now.last.value.expiry == tok.expiry
            && now.last.value.refresh ==
               if tok.refresh != "" || m.last.None? then tok.refresh else m.last.value.refresh)
      && (m.last.Some? && NothingNew(m.last.value, tok) ==> now == m)
      && (fault.Some? && fault != Some(SyncDir) ==> now == m)
      && (fault == Some(SyncDir) && !(m.last.Some? && NothingNew(m.last.value, tok)) ==>
            && now.last == m.last && now.file.Some? && now.file.value.Whole?
            && now.file.value.value.access == tok.access && now.file.value.value.expiry == tok.expiry
            && now.file.value.value.refresh ==
               if tok.refresh != "" || m.last.None? then tok.refresh else m.last.value.refresh)
  {
  }

  function AfterAll(m: Mem, calls: seq<Life>): Mem {
    if calls == [] then m
    else After(AfterAll(m, calls[..|calls| - 1]), calls[|calls| - 1].inner, calls[|calls| - 1].fault)
  }

  /** The response carries a refresh token. */
  predicate Carries(call: Life) {
    call.inner.Ok? && call.inner.value.refresh != ""
  }

  /** The call writes the file: something changed, and the rename was reached. */
  predicate Writes(m: Mem, call: Life) {
    call.inner.Ok? && TokenChanged(m.last, call.inner.value) && Reaches(call.fault)
  }

  predicate Remembers(m: Mem, refresh: string) {
    m.last.Some? && m.last.value.refresh == refresh
  }

  predicate OnFile(m: Mem, refresh: string) {
    m.file.Some? && m.file.value.Whole? && m.file.value.value.refresh == refresh
  }

  /** Some call wrote the file. */
  predicate SomeWrote(m: Mem, calls: seq<Life>) {
    calls != []
    && (SomeWrote(m, calls[..|calls| - 1]) || Writes(AfterAll(m, calls[..|calls| - 1]), calls[|calls| - 1]))
  }

  lemma OneMoreCall(m: Mem, call: Life, newest: string)
    requires newest != "" && m.last.Some? && m.last.value.refresh != "" && !Carries(call)
    ensures After(m, call.inner, call.fault).last.Some?
    ensures After(m, call.inner, call.fault).last.value.refresh == m.last.value.refresh
    ensures OnFile(After(m, call.inner, call.fault), newest) <==>
            if Writes(m, call) then Remembers(m, newest) else OnFile(m, newest)
  {
  }

  lemma CarryingCall(m: Mem, call: Life)
    requires Carries(call) && m.last.Some? && m.last.value.refresh != ""
    ensures var newest, now := call.inner.value.refresh, After(m, call.inner, call.fault);
      && now.last.Some? && now.last.value.refresh != ""
      && (Remembers(now, newest) <==> Remembers(m, newest) || call.fault.None?)
      && (OnFile(now, newest) <==> Writes(m, call) || OnFile(m, newest))
  {
  }

  /** While no response carries a refresh token, the remembered one stays, and
      the file holds it or what it held, by whether a call wrote. */
  lemma {:induction false} WithoutCarrying(m: Mem, calls: seq<Life>, newest: string)
    requires newest != "" && m.last.Some? && m.last.value.refresh != ""
    requires forall i :: 0 <= i < |calls| ==> !Carries(calls[i])
    ensures AfterAll(m, calls).last.Some? && AfterAll(m, calls).last.value.refresh == m.last.value.refresh
    ensures OnFile(AfterAll(m, calls), newest) <==>
            if SomeWrote(m, calls) then Remembers(m, newest) else OnFile(m, newest)
  {
    if calls != [] {
      var n := |calls| - 1;
      WithoutCarrying(m, calls[..n], newest);
      OneMoreCall(AfterAll(m, calls[..n]), calls[n], newest);
      hide OnFile, After, Writes;
    }
  }

  /** Over any run of calls, the `k`-th being the last whose response carried a
      refresh token: when a later call wrote the file, it holds that newest token
      exactly when the write at `k` went well or the token was remembered before;
      and otherwise exactly when the write at `k` reached the file or the token
      was on file before. */
  lemma NewestIsOnFileExactlyWhen(m: Mem, calls: seq<Life>, k: nat)
    requires k < |calls| && Carries(calls[k]) && forall i :: k < i < |calls| ==> !Carries(calls[i])
    requires m.last.Some? && m.last.value.refresh != ""
    ensures var newest, at := calls[k].inner.value.refresh, AfterAll(m, calls[..k]);
      OnFile(AfterAll(m, calls), newest) <==>
        if SomeWrote(After(at, calls[k].inner, calls[k].fault), calls[k + 1..])
        then Remembers(at, newest) || calls[k].fault.None?
        else Writes(at, calls[k]) || OnFile(at, newest)
  {
    var newest, at, later := calls[k].inner.value.refresh, AfterAll(m, calls[..k]), calls[k + 1..];
    StillRemembers(m, calls[..k]);
    AfterConcat(m, calls[..k + 1], later);
    assert calls[..k + 1] + later == calls && calls[..k + 1][..k] == calls[..k];
    CarryingCall(at, calls[k]);
    hide After, Writes, OnFile, Remembers, SomeWrote;
    WithoutCarrying(After(at, calls[k].inner, calls[k].fault), later, newest);
  }

  /** So a rotated refresh token can be lost: written to the file, forgotten
      because the directory sync failed, and overwritten by the superseded one
      when the next response carries none. */
  lemma SupersededTokenCanReturn(m: Mem, rotated: Life, next: Life)
    requires m.last.Some? && m.last.value.refresh != ""
    requires Carries(rotated) && rotated.inner.value.refresh != m.last.value.refresh && rotated.fault == Some(SyncDir)
    requires !Carries(next) && Writes(m, next)
    ensures OnFile(AfterAll(m, [rotated]), rotated.inner.value.refresh)
    ensures OnFile(AfterAll(m, [rotated, next]), m.last.value.refresh)
  {
    assert [rotated, next][..1] == [rotated] && [rotated][..0] == [];
    assert AfterAll(m, [rotated]) == After(m, rotated.inner, rotated.fault);
  }

  lemma {:induction false} StillRemembers(m: Mem, calls: seq<Life>)
    requires m.last.Some? && m.last.value.refresh != ""
    ensures AfterAll(m, calls).last.Some? && AfterAll(m, calls).last.value.refresh != ""
  {
    if calls != [] {
      StillRemembers(m, calls[..|calls| - 1]);
    }
  }

  lemma {:induction false} AfterConcat(m: Mem, a: seq<Life>, b: seq<Life>)
    ensures AfterAll(m, a + b) == AfterAll(AfterAll(m, a), b)
  {
    if b == [] {
      assert a + b == a;
    } else {
      assert (a + b)[..|a + b| - 1] == a + b[..|b| - 1];
      AfterConcat(m, a, b[..|b| - 1]);
    }
  }

  datatype LoadError = NotAuthorized | Unreadable

  function TokenFromFile(r: Option<Content<Token>>): Result<Token, LoadError> {
    match r
    case None => Err(NotAuthorized)
    case Some(Torn) => Err(Unreadable)
    case Some(Whole(tok)) => if tok.access == "" && tok.refresh == "" then Err(Unreadable) else Ok(tok)
  }

  /** A token is loaded exactly when the file holds a whole one that is not
      empty, and then it is that one; a missing file means not authorized. */
  lemma LoadsExactlyWhen(r: Option<Content<Token>>)
    ensures TokenFromFile(r).Ok? <==>
            r.Some? && r.value.Whole? && (r.value.value.access != "" || r.value.value.refresh != "")
    ensures TokenFromFile(r).Ok? ==> r == Some(Whole(TokenFromFile(r).value))
    ensures TokenFromFile(r).Err? ==> TokenFromFile(r).error == if r.None? then NotAuthorized else Unreadable
  {
  }

  /** A complete token that can be refreshed. */
  predicate Usable(r: Option<Content<Token>>) {
    r.Some? && r.value.Whole? && r.value.value.refresh != ""
  }

  /** The path holds a usable token now and after a crash. */
  ghost predicate Kept(d: Disk<Token>) {
    && DiskOk(d)
    && Usable(Reads(d))
    && forall r :: MayRead(d, r) ==> Usable(r)
  }

  lemma TrailIsKept(before: Disk<Token>, data: Token, trail: seq<Disk<Token>>, d: Disk<Token>, i: nat)
    requires Trail(before, data, trail, d) && Kept(before) && data.refresh != "" && i < |trail|
    ensures Kept(trail[i])
  {
    assert OldOrNew(before, trail[i], data);
  }

  class PersistingTokenSource {
    var disk: Disk<Token>
    var last: Option<Token>

    constructor (disk: Disk<Token>, last: Option<Token>)
      requires DiskOk(disk) && disk.temp.None?
      ensures Valid() && this.disk == disk && this.last == last
    {
      this.disk, this.last := disk, last;
    }

    ghost predicate Valid()
      reads this
    {
      DiskOk(disk) && disk.temp.None?
    }

    /** The refresh token is safe on disk and in memory. */
    ghost predicate Durable()
      reads this
    {
      Kept(disk) && last.Some? && last.value.refresh != ""
    }

    /** Returns what the inner source returns, and writes it back when it
        changed; a failure to write is only logged. `trail` are the states of
        the disk along the way. */
    method Token(inner: Result<Token, string>, fault: Option<Step>, removes: bool)
      returns (r: Result<Token, string>, trail: seq<Disk<Token>>)
      requires Valid()
      modifies this
      ensures Valid() && r == inner
      ensures trail != [] && trail[0] == old(disk) && trail[|trail| - 1] == disk && Stepwise(trail)
      ensures forall i :: 0 <= i < |trail| ==> DiskOk(trail[i])
      ensures inner.Err? || !TokenChanged(old(last), inner.value) ==>
        disk == old(disk) && last == old(last) && trail == [disk]
      ensures inner.Ok? && TokenChanged(old(last), inner.value) ==>
        && Trail(old(disk), ToSave(old(last), inner.value), trail, disk)
        && (fault.None? ==> forall x :: MayRead(disk, x) ==> x == Some(Whole(ToSave(old(last), inner.value))))
      // Memory and file afterwards, exactly (by fields, OneCallByFields).
      ensures Mem(last, Reads(disk)) == After(old(Mem(last, Reads(disk))), inner, fault)
      // With no failure both hold the access token and expiry of the response,
      // and its refresh token or else the remembered one.
      ensures inner.Ok? && fault.None? && old(Agree(Mem(last, Reads(disk)))) ==>
        && last.Some? && Reads(disk) == Some(Whole(last.value))
        && last.value.access == inner.value.access && last.value.expiry == inner.value.expiry
        && last.value.refresh ==
           if inner.value.refresh != "" || old(last).None? then inner.value.refresh else old(last.value.refresh)
      // With nothing new nothing is written.
      ensures inner.Ok? && old(last).Some? && NothingNew(old(last.value), inner.value) ==>
        disk == old(disk) && last == old(last)
      // Once there is a refresh token it is never lost, wherever a crash comes.
      ensures old(Durable()) ==> Durable() && forall i :: 0 <= i < |trail| ==> Kept(trail[i])
    {
      hide MayRead, OldOrNew, Trail, Reads, DiskOk, OneStep;
      r, trail := inner, [disk];
      if inner.Err? {
        return;
      }
      var tok := inner.value;
      if !TokenChanged(last, tok) {
        return;
      }
      var toSave := tok;
      if toSave.refresh == "" && last.Some? && last.value.refresh != "" {
        toSave := toSave.(refresh := last.value.refresh);
      }
      ghost var before := disk;
      var failed;
      failed, disk, trail := Write(disk, toSave, fault, removes);
      TrailEnds(before, toSave, trail, disk);
      if Kept(before) && toSave.refresh != "" {
        forall i | 0 <= i < |trail|
          ensures Kept(trail[i])
        {
          TrailIsKept(before, toSave, trail, disk, i);
        }
      }
      if failed.Some? {
        return;
      }
      last := Some(toSave);
    }

    /** The machine crashes in state `d` and the daemon starts again: the path
        names one of the files it may name, and the token is read from it. */
    method Restart(d: Disk<Token>) returns (loaded: bool)
      requires DiskOk(d)
      modifies this
      ensures Valid() && MayRead(d, Reads(disk))
      ensures loaded <==> TokenFromFile(Reads(disk)).Ok?
      ensures loaded ==> last == Some(TokenFromFile(Reads(disk)).value)
      ensures Kept(d) ==> loaded && Durable()
    {
      var e :| e in d.durable;
      var lost: bool := *;
      var content := CrashRead(d, e, lost);
      if content.None? {
        disk := Disk([], None, {None}, None, d.leftovers);
      } else {
        disk := Disk([Inode(content.value, true)], Some(0), {Some(0)}, None, d.leftovers);
      }
      AfterCrash(content, disk);
      assert MayRead(d, content);
      var tok := TokenFromFile(content);
      loaded := tok.Ok?;
      last := if loaded then Some(tok.value) else None;
    }

    /** A whole life: any calls, failing writes and crashes at any step. It
        ends early when a restart finds no token it can use. */
    method Live(life: seq<Life>) returns (alive: bool)
      requires Valid()
      modifies this
      ensures Valid()
      ensures old(Durable()) ==> alive && Durable()
      // Without a crash the memory and the file are those of the calls.
      ensures (forall i :: 0 <= i < |life| ==> life[i].Call?) ==>
        alive && Mem(last, Reads(disk)) == AfterAll(old(Mem(last, Reads(disk))), life)
    {
      alive := true;
      for i := 0 to |life|
        invariant Valid() && alive
        invariant old(Durable()) ==> Durable()
        invariant (forall j :: 0 <= j < i ==> life[j].Call?) ==>
          Mem(last, Reads(disk)) == AfterAll(old(Mem(last, Reads(disk))), life[..i])
      {
        hide MayRead, OldOrNew, Trail, Reads, Kept, TokenChanged, ToSave, TokenFromFile, After;
        assert life[..i + 1][..i] == life[..i];
        var event := life[i];
        var r, trail := Token(event.inner, event.fault, event.removes);
        if event.Crash? {
          alive := Restart(if event.at < |trail| then trail[event.at] else disk);
          if !alive {
            return;
          }
        }
      }
      assert life[..|life|] == life;
    }
  }

  lemma TrailEnds<T(!new)>(before: Disk<T>, data: T, trail: seq<Disk<T>>, d: Disk<T>)
    requires Trail(before, data, trail, d)
    ensures trail != [] && trail[0] == before && trail[|trail| - 1] == d && Stepwise(trail)
    ensures forall i :: 0 <= i < |trail| ==> DiskOk(trail[i])
  {
    forall i | 0 <= i < |trail|
      ensures DiskOk(trail[i])
    {
      assert OldOrNew(before, trail[i], data);
    }
  }

  lemma AfterCrash(content: Option<Content<Token>>, d: Disk<Token>)
    requires d == if content.None? then Disk([], None, {None}, None, d.leftovers)
                  else Disk([Inode(content.value, true)], Some(0), {Some(0)}, None, d.leftovers)
    ensures DiskOk(d) && Reads(d) == content
    ensures forall r :: MayRead(d, r) ==> r == content
  {
  }
}
