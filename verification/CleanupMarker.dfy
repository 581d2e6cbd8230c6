/**
 Storage of the cleanup marker: publication by hard link, replacement by rename, removal, and the read
 that heals an interrupted publication.

 The directory is a map from names to inodes and the inodes' contents. A process may stop after any
 system call, and any system call may fail without effect. Loss of power, inode reuse, and files of
 another owner, mode or type are not part of this model.
*/
module CleanupMarker {
  import opened Bytes
  import opened Options
  import opened JournalLines

  const MAX_POISON_BYTES := 64 * 1024

  type Inode = nat
  /** The marker, and the temporary names made from it with 32 hexadecimal digits. */
  datatype Name = Marker | Temp(hex: nat)
  datatype Fs = Fs(names: map<Name, Inode>, data: map<Inode, seq<Byte>>, next: Inode)

  datatype Loaded<R> = Absent | Found(record: R, identity: Inode) | Refused

  /** `_encode` checks the size; reading refuses an empty file. */
  ghost predicate Faithful<R(!new)>(c: Codec<R>)
  {
    forall r :: c.encode(r) != [] && c.decode(c.encode(r)) == Some(r)
  }

  function Links(fs: Fs, i: Inode): nat { |set n | n in fs.names && fs.names[n] == i| }

  /**
   The states a store can be found in: names lead to files, no two temporaries are the same file, and
   what the marker names is a whole record.
  */
  ghost predicate Safe<R>(c: Codec<R>, fs: Fs)
  {
    && (forall n :: n in fs.names ==> fs.names[n] in fs.data && fs.names[n] < fs.next)
    && (forall n, m :: n in fs.names && m in fs.names && n.Temp? && m.Temp? && n != m ==> fs.names[n] != fs.names[m])
    && (Marker in fs.names ==> Whole(c, fs.data[fs.names[Marker]]))
  }

  predicate Whole<R>(c: Codec<R>, content: seq<Byte>)
  {
    0 < |content| <= MAX_POISON_BYTES && c.decode(content).Some?
  }

  /** The record a state stands for. */
  ghost function Record<R>(c: Codec<R>, fs: Fs): Option<R>
    requires Safe(c, fs)
  {
    if Marker in fs.names then c.decode(fs.data[fs.names[Marker]]) else None
  }

  /** States number `from` up to `to` all stand for this record. */
  ghost predicate Keeps<R>(c: Codec<R>, states: seq<Fs>, from: nat, to: nat, record: Option<R>)
  {
    forall i :: from <= i < to && i < |states| ==> Safe(c, states[i]) && Record(c, states[i]) == record
  }

  /** From number `from` on, the first states stand for `before` and the later ones for `after`. */
  ghost predicate Switches<R>(c: Codec<R>, states: seq<Fs>, from: nat, before: Option<R>, after: Option<R>)
  {
    exists k :: from <= k <= |states| && Keeps(c, states, from, k, before) && Keeps(c, states, k, |states|, after)
  }

  lemma Slices(payload: seq<Byte>, done: nat, written: nat)
    requires done + written <= |payload|
    ensures payload[..done] + payload[done..][..written] == payload[..done + written]
  {
  }

  lemma NoStates<R>(c: Codec<R>, states: seq<Fs>, record: Option<R>)
    ensures Keeps(c, states, |states|, |states|, record)
  {
  }

  lemma KeepsOn<R>(c: Codec<R>, states: seq<Fs>, base: nat, fs: Fs, record: Option<R>)
    requires base <= |states| && Keeps(c, states, base, |states|, record) && Safe(c, fs) && Record(c, fs) == record
    ensures Keeps(c, states + [fs], base, |states| + 1, record)
  {
  }

  lemma KeepsJoined<R>(c: Codec<R>, states: seq<Fs>, from: nat, via: nat, to: nat, record: Option<R>)
    requires Keeps(c, states, from, via, record) && Keeps(c, states, via, to, record)
    ensures Keeps(c, states, from, to, record)
  {
  }

  lemma NoSwitch<R>(c: Codec<R>, states: seq<Fs>, from: nat, before: Option<R>, after: Option<R>)
    requires from <= |states| && Keeps(c, states, from, |states|, before)
    ensures Switches(c, states, from, before, after)
  {
    NoStates(c, states, after);
  }

  lemma KeepsLonger<R>(c: Codec<R>, short: seq<Fs>, long: seq<Fs>, from: nat, to: nat, record: Option<R>)
    requires Keeps(c, short, from, to, record) && to <= |short| && short <= long
    ensures Keeps(c, long, from, to, record)
  {
  }

  /** Nothing changes, then one operation switches, then nothing changes. */
  lemma SwitchesBetween<R>(c: Codec<R>, first: seq<Fs>, middle: seq<Fs>, last: seq<Fs>, from: nat, before: Option<R>,
          after: Option<R>)
    requires from <= |first| && first <= middle <= last
    requires Keeps(c, first, from, |first|, before) && Switches(c, middle, |first|, before, after)
    requires Keeps(c, last, |middle|, |last|, after)
    ensures Switches(c, last, from, before, after)
  {
    var k :| |first| <= k <= |middle| && Keeps(c, middle, |first|, k, before) && Keeps(c, middle, k, |middle|, after);
    assert Keeps(c, last, from, k, before);
    assert Keeps(c, last, k, |last|, after);
  }

  /** What the marker names, if it is there, is a whole record. */
  lemma MarkerIsWhole<R>(c: Codec<R>, fs: Fs)
    requires Safe(c, fs)
    ensures Marker !in fs.names ==> Record(c, fs).None?
    ensures Marker in fs.names ==> fs.names[Marker] in fs.data && Whole(c, fs.data[fs.names[Marker]])
    ensures Marker in fs.names ==> Record(c, fs) == c.decode(fs.data[fs.names[Marker]])
  {
  }

  // ---------- Links ----------

  /** In a safe state the marker's file has one name more than itself at most. */
  lemma MarkerLinks<R>(c: Codec<R>, fs: Fs)
    requires Safe(c, fs) && Marker in fs.names
    ensures var i := fs.names[Marker];
            if exists t :: t in fs.names && t.Temp? && fs.names[t] == i then Links(fs, i) == 2 else Links(fs, i) == 1
  {
    var i := fs.names[Marker];
    var names := set n | n in fs.names && fs.names[n] == i;
    if t :| t in fs.names && t.Temp? && fs.names[t] == i {
      assert names == {Marker, t};
    } else {
      assert names == {Marker};
    }
  }

  /** Its other names. */
  function Twins(fs: Fs, i: Inode): set<Name> { set n | n in fs.names && n.Temp? && fs.names[n] == i }

  lemma TwinIsUnique<R>(c: Codec<R>, fs: Fs)
    requires Safe(c, fs) && Marker in fs.names
    ensures |Twins(fs, fs.names[Marker])| == Links(fs, fs.names[Marker]) - 1
  {
    var i := fs.names[Marker];
    MarkerLinks(c, fs);
    if t :| t in fs.names && t.Temp? && fs.names[t] == i {
      assert Twins(fs, i) == {t};
    } else {
      assert Twins(fs, i) == {};
    }
  }

  lemma DroppedTwin<R>(c: Codec<R>, a: Fs, b: Fs, hex: nat)
    requires Marker in a.names && Twins(a, a.names[Marker]) == {Temp(hex)}
    requires Safe(c, b) && b.names == a.names - {Temp(hex)}
    ensures Links(b, b.names[Marker]) == 1
  {
    var i := b.names[Marker];
    TwinIsUnique(c, b);
    assert Twins(b, i) == Twins(a, i) - {Temp(hex)};
  }

  class MarkerStore<R(==,!new)> {
    var fs: Fs
    var calls: nat
    const codec: Codec<R>
    /** The kernel's answer to each call: 0 is an error, and a write takes at most that many bytes. */
    const kernel: nat -> nat
    /** Every state the directory has been in. */
    ghost var history: seq<Fs>

    constructor (codec: Codec<R>, kernel: nat -> nat, fs: Fs)
      requires Faithful(codec) && Safe(codec, fs)
      ensures Valid() && this.codec == codec && this.kernel == kernel && this.fs == fs && history == [fs]
    {
      this.codec, this.kernel, this.fs, calls, history := codec, kernel, fs, 0, [fs];
    }

    ghost predicate Valid()
      reads this
    {
      Faithful(codec) && Safe(codec, fs) && history != [] && history[|history| - 1] == fs
    }

    /** The record the directory stands for. */
    ghost function Stored(): Option<R>
      requires Valid()
      reads this
    {
      Record(codec, fs)
    }

    /** Every state from number `base` on stands for this record. */
    ghost predicate Kept(base: nat, record: Option<R>)
      reads this
    {
      base <= |history| && Keeps(codec, history, base, |history|, record)
    }

    /** One more state, or none. */
    twostate predicate Stepped()
      reads this
    {
      history == old(history) + [fs] || (history == old(history) && fs == old(fs))
    }

    /** One more state that stands for the same record. */
    lemma StillKept(states: seq<Fs>, base: nat, record: Option<R>)
      requires base <= |states| && Keeps(codec, states, base, |states|, record)
      requires Valid() && Stored() == record && (history == states + [fs] || history == states)
      ensures Kept(base, record)
    {
      if history != states { KeepsOn(codec, states, base, fs, record); }
    }

    /** One of the calls since number `from` failed. */
    ghost predicate Faulted(from: nat)
      reads this
    {
      exists n :: from <= n < calls && kernel(n) == 0
    }

    /** The kernel's answer to the next call. */
    method Call() returns (answer: nat)
      modifies `calls
      ensures calls == old(calls) + 1 && answer == kernel(old(calls)) && (answer == 0 ==> Faulted(old(calls)))
    {
      answer, calls := kernel(calls), calls + 1;
    }

    // ---------- System calls ----------

    /** `open(O_CREAT | O_EXCL)` of a temporary. */
    method Create(hex: nat) returns (inode: Option<Inode>)
      requires Valid()
      modifies this
      ensures Valid() && Stepped() && Stored() == old(Stored()) && calls == old(calls) + 1
      ensures inode.None? ==> Faulted(old(calls)) || Temp(hex) in old(fs).names
      ensures inode.Some? ==> fs.names == old(fs).names[Temp(hex) := inode.value] && Temp(hex) !in old(fs).names
      ensures inode.Some? ==> Private(hex, inode.value) && fs.data[inode.value] == []
    {
      var answer := Call();
      if answer == 0 || Temp(hex) in fs.names { return None; }
      inode := Some(fs.next);
      fs := Fs(fs.names[Temp(hex) := fs.next], fs.data[fs.next := []], fs.next + 1);
      history := history + [fs];
    }

    /** The temporary's file has no other name. */
    ghost predicate Private(hex: nat, inode: Inode)
      reads this
    {
      && Temp(hex) in fs.names && fs.names[Temp(hex)] == inode && inode in fs.data
      && forall n :: n in fs.names && n != Temp(hex) ==> fs.names[n] != inode
    }

    /** `write`: as many bytes as the kernel takes, or an error. */
    method Write(hex: nat, inode: Inode, bytes: seq<Byte>) returns (written: nat)
      requires Valid() && Private(hex, inode) && bytes != []
      modifies this
      ensures Valid() && Stepped() && Stored() == old(Stored()) && Private(hex, inode) && fs.names == old(fs).names
      ensures calls == old(calls) + 1 && (written == 0 ==> Faulted(old(calls)))
      ensures written <= |bytes| && fs.data[inode] == old(fs).data[inode] + bytes[..written]
    {
      var answer := Call();
      if answer == 0 { return 0; }
      written := if answer < |bytes| then answer else |bytes|;
      fs := fs.(data := fs.data[inode := fs.data[inode] + bytes[..written]]);
      history := history + [fs];
    }

    /** `link` of a temporary to the marker; it never replaces one. */
    method Link(hex: nat, inode: Inode) returns (ok: bool)
      requires Valid() && Private(hex, inode) && Whole(codec, fs.data[inode])
      modifies this
      ensures Valid() && Stepped() && calls == old(calls) + 1 && (!ok ==> Faulted(old(calls)) || old(Stored()).Some?)
      ensures ok ==> Marker !in old(fs).names && fs == old(fs).(names := old(fs).names[Marker := inode])
      ensures ok ==> old(Stored()).None? && Stored() == codec.decode(fs.data[inode]) && history == old(history) + [fs]
      ensures !ok ==> fs == old(fs) && history == old(history)
    {
      var answer := Call();
      if answer == 0 || Marker in fs.names { return false; }
      fs := fs.(names := fs.names[Marker := inode]);
      history := history + [fs];
      ok := true;
    }

    method Unlink(name: Name) returns (ok: bool)
      requires Valid()
      modifies this
      ensures Valid() && Stepped() && calls == old(calls) + 1 && (!ok ==> Faulted(old(calls)) || name !in old(fs).names)
      ensures ok ==> name in old(fs).names && fs == old(fs).(names := old(fs).names - {name})
      ensures ok ==> history == old(history) + [fs]
      ensures !ok ==> fs == old(fs) && history == old(history)
      ensures name.Temp? ==> Stored() == old(Stored())
    {
      var answer := Call();
      if answer == 0 || name !in fs.names { return false; }
      fs := fs.(names := fs.names - {name});
      history := history + [fs];
      ok := true;
    }

    /** `rename` of a temporary over the marker. */
    method Rename(hex: nat, inode: Inode) returns (ok: bool)
      requires Valid() && Private(hex, inode) && Whole(codec, fs.data[inode])
      modifies this
      ensures Valid() && Stepped() && calls == old(calls) + 1 && (!ok ==> Faulted(old(calls)))
      ensures ok ==> fs == old(fs).(names := (old(fs).names - {Temp(hex)})[Marker := inode])
      ensures ok ==> Stored() == codec.decode(fs.data[inode]) && history == old(history) + [fs]
      ensures !ok ==> fs == old(fs) && history == old(history)
    {
      var answer := Call();
      if answer == 0 { return false; }
      fs := fs.(names := (fs.names - {Temp(hex)})[Marker := inode]);
      history := history + [fs];
      ok := true;
    }

    /** The marker is this file, under one name. */
    ghost predicate Names(inode: Inode)
      reads this
    {
      Marker in fs.names && fs.names[Marker] == inode && Links(fs, inode) == 1
    }

    // ---------- The operations ----------

    /** `_write_all`, then `fsync`. */
    method WriteAll(hex: nat, inode: Inode, payload: seq<Byte>) returns (ok: bool)
      requires Valid() && Private(hex, inode) && fs.data[inode] == []
      modifies this
      ensures Valid() && Private(hex, inode) && fs.names == old(fs).names && Stored() == old(Stored())
      ensures old(history) <= history && Kept(|old(history)|, old(Stored()))
      ensures calls > old(calls) && (!ok ==> Faulted(old(calls)))
      ensures ok ==> fs.data[inode] == payload
    {
      hide Safe, Record, Faithful, Keeps;
      NoStates(codec, history, old(Stored()));
      var done := 0;
      while done < |payload|
        invariant Valid() && Private(hex, inode) && fs.names == old(fs).names && Stored() == old(Stored())
        invariant old(history) <= history && Kept(|old(history)|, old(Stored()))
        invariant done <= |payload| && fs.data[inode] == payload[..done] && calls >= old(calls)
      {
        ghost var h := history;
        var written := Write(hex, inode, payload[done..]);
        StillKept(h, |old(history)|, old(Stored()));
        if written == 0 { return false; }
        Slices(payload, done, written);
        done := done + written;
      }
      assert payload[..done] == payload;
      var synced := Call();
      ok := synced != 0;
    }

    /** The first half of `_publish_new`: a whole temporary, linked to the marker. */
    method LinkNew(record: R, payload: seq<Byte>, hex: nat) returns (linked: bool)
      requires Valid() && payload == codec.encode(record) && |payload| <= MAX_POISON_BYTES
      modifies this
      ensures Valid() && old(history) <= history && calls > old(calls)
      ensures !linked ==> Kept(|old(history)|, old(Stored())) && Stored() == old(Stored())
      ensures linked ==> old(Stored()).None? && Stored() == Some(record) && |history| > |old(history)|
      ensures linked ==> Temp(hex) in fs.names
      ensures linked ==>
                Keeps(codec, history, |old(history)|, |history| - 1, None) && Twins(fs, fs.names[Marker]) == {Temp(hex)}
      ensures !linked && old(Stored()).None? ==> Faulted(old(calls)) || Temp(hex) in old(fs).names
    {
      hide Safe, Record, Faithful, Keeps, Whole;
      ghost var base, before := |history|, Stored();
      NoStates(codec, history, before);
      var inode := Create(hex);
      StillKept(old(history), base, before);
      if inode.None? { return false; }
      ghost var made := history;
      var written := WriteAll(hex, inode.value, payload);
      KeepsLonger(codec, made, history, base, |made|, before);
      KeepsJoined(codec, history, base, |made|, |history|, before);
      if !written { return false; }
      ghost var ready := history;
      EncodedIsWhole(record);
      linked := Link(hex, inode.value);
      KeepsLonger(codec, ready, history, base, |ready|, before);
      if linked { OnlyTwin(hex, inode.value); }
    }

    lemma EncodedIsWhole(record: R)
      requires Faithful(codec) && |codec.encode(record)| <= MAX_POISON_BYTES
      ensures Whole(codec, codec.encode(record)) && codec.decode(codec.encode(record)) == Some(record)
    {
    }

    lemma OnlyTwin(hex: nat, inode: Inode)
      requires Temp(hex) in fs.names && fs.names[Temp(hex)] == inode
      requires forall n :: n in fs.names && n.Temp? && n != Temp(hex) ==> fs.names[n] != inode
      ensures Twins(fs, inode) == {Temp(hex)}
    {
    }

    /** `_publish_new`: write a temporary, link it to the marker, and drop the temporary name. */
    method PublishNew(record: R, hex: nat) returns (ok: bool)
      requires Valid()
      modifies this
      ensures Valid() && old(history) <= history
      ensures Switches(codec, history, |old(history)|, old(Stored()),
                       if old(Stored()).None? then Some(record) else old(Stored()))
      ensures ok ==> old(Stored()).None? && Stored() == Some(record) && Links(fs, fs.names[Marker]) == 1
      ensures !ok ==> Faulted(old(calls)) || old(Stored()).Some? || Temp(hex) in old(fs).names
                      || |codec.encode(record)| > MAX_POISON_BYTES
    {
      hide Safe, Faithful, Keeps, Links, Twins;
      ghost var base, before := |history|, Stored();
      NoStates(codec, history, before);
      ghost var after := if before.None? then Some(record) else before;
      var payload := codec.encode(record);
      if |payload| > MAX_POISON_BYTES {
        NoSwitch(codec, history, base, before, after);
        return false;
      }
      ok := LinkNew(record, payload, hex);
      ghost var linked, entries := history, fs;
      var dropped := Unlink(Temp(hex));
      if !ok {
        StillKept(linked, base, before);
        NoSwitch(codec, history, base, before, after);
        return;
      }
      SwitchLast(linked, history, base, record);
      if dropped { DroppedTwin(codec, entries, fs, hex); }
      var synced := Call();
      ok := dropped && synced != 0;
    }

    /** `_write_private`: write a temporary and rename it over the marker. */
    method WritePrivate(record: R, hex: nat) returns (ok: bool)
      requires Valid() && |codec.encode(record)| <= MAX_POISON_BYTES
      modifies this
      ensures Valid() && old(history) <= history && calls >= old(calls)
      ensures Switches(codec, history, |old(history)|, old(Stored()), Some(record))
      ensures ok ==> Stored() == Some(record)
      ensures !ok ==> Faulted(old(calls)) || Temp(hex) in old(fs).names
    {
      hide Safe, Record, Faithful, Keeps, Whole;
      ghost var base, before := |history|, Stored();
      NoStates(codec, history, before);
      var inode := Create(hex);
      StillKept(old(history), base, before);
      if inode.None? {
        NoSwitch(codec, history, base, before, Some(record));
        return false;
      }
      ghost var made := history;
      var written := WriteAll(hex, inode.value, codec.encode(record));
      KeepsLonger(codec, made, history, base, |made|, before);
      KeepsJoined(codec, history, base, |made|, |history|, before);
      ghost var ready := history;
      if !written {
        var dropped := Unlink(Temp(hex));
        StillKept(ready, base, before);
        NoSwitch(codec, history, base, before, Some(record));
        return false;
      }
      EncodedIsWhole(record);
      ok := Rename(hex, inode.value);
      if !ok {
        NoSwitch(codec, history, base, before, Some(record));
        return;
      }
      SwitchNow(ready, base, before);
      var synced := Call();
      ok := synced != 0;
    }

    /** The state just reached is the first of the new record. */
    lemma SwitchNow(states: seq<Fs>, base: nat, before: Option<R>)
      requires base <= |states| && Keeps(codec, states, base, |states|, before)
      requires Valid() && history == states + [fs]
      ensures Switches(codec, history, base, before, Stored())
    {
      assert Keeps(codec, history, base, |states|, before) && Keeps(codec, history, |states|, |history|, Stored());
    }

    /** `_identity`: the marker's inode, if it is a file of one name and legal size. */
    method Identity() returns (inode: Option<Inode>)
      requires Valid()
      modifies `calls
      ensures Valid() && calls == old(calls) + 1
      ensures inode.Some? ==> Marker in fs.names && fs.names[Marker] == inode.value && Links(fs, inode.value) == 1
      ensures inode.None? ==> Faulted(old(calls)) || Marker !in fs.names || Links(fs, fs.names[Marker]) != 1
    {
      var answer := Call();
      if answer == 0 || Marker !in fs.names { return None; }
      var i := fs.names[Marker];
      inode := if Links(fs, i) == 1 && |fs.data[i]| <= MAX_POISON_BYTES then Some(i) else None;
    }

    /** `_clear`. */
    method Clear(identity: Inode) returns (ok: bool)
      requires Valid()
      modifies this
      ensures Valid() && old(history) <= history
      ensures Switches(codec, history, |old(history)|, old(Stored()), None)
      ensures ok ==> Stored().None?
      ensures !ok ==> Faulted(old(calls)) || !old(Names(identity))
      ensures !old(Names(identity)) ==> !ok && history == old(history)
    {
      hide Safe, Faithful, Keeps, Links;
      ghost var base, before := |history|, Stored();
      NoStates(codec, history, before);
      NoSwitch(codec, history, base, before, None);
      var observed := Identity();
      if observed != Some(identity) { return false; }
      var removed := Unlink(Marker);
      if !removed { return false; }
      SwitchNow(old(history), base, before);
      var synced := Call();
      ok := synced != 0;
    }

    /** The directory walk of the healing: the temporaries that are the marker's file. */
    method FindTwins(inode: Inode) returns (matches: Option<set<Name>>)
      modifies `calls
      ensures calls >= old(calls)
      ensures matches.Some? ==> matches.value == Twins(fs, inode)
      ensures matches.None? ==> Faulted(old(calls))
    {
      var found, left := {}, fs.names.Keys;
      while left != {}
        invariant left <= fs.names.Keys && calls >= old(calls)
        invariant found == set n | n in fs.names.Keys - left && n.Temp? && fs.names[n] == inode
        decreases |left|
      {
        var entry :| entry in left;
        left := left - {entry};
        if entry.Temp? {
          var answer := Call();
          if answer == 0 { return None; }
          if fs.names[entry] == inode { found := found + {entry}; }
        }
      }
      matches := Some(found);
    }

    /** `_heal_interrupted_publish`, for the marker's inode and its number of names. */
    method Heal(inode: Inode, links: nat) returns (ok: bool)
      requires Valid() && Marker in fs.names && inode == fs.names[Marker] && links == Links(fs, inode)
      modifies this
      ensures Valid() && old(history) <= history && Kept(|old(history)|, old(Stored())) && Stored() == old(Stored())
      ensures calls >= old(calls) && Marker in fs.names && fs.names[Marker] == inode
      ensures fs.names.Keys <= old(fs).names.Keys
      ensures ok ==> Links(fs, inode) == 1
      ensures !ok ==> Faulted(old(calls))
    {
      hide Safe, Record, Faithful, Keeps;
      NoStates(codec, history, Stored());
      if links == 1 { return true; }
      MarkerLinks(codec, fs);
      TwinIsUnique(codec, fs);
      if links != 2 { return false; }
      var matches := FindTwins(inode);
      if matches.None? { return false; }
      if |matches.value| != 1 { return false; }
      var twin :| twin in matches.value;
      ghost var entries := fs;
      SoleMember(matches.value, twin);
      ok := Unlink(twin);
      StillKept(old(history), |old(history)|, old(Stored()));
      if !ok { return; }
      DroppedTwin(codec, entries, fs, twin.hex);
      var synced := Call();
      ok := synced != 0;
    }

    lemma SoleMember(names: set<Name>, n: Name)
      requires |names| == 1 && n in names
      ensures names == {n}
    {
      assert |names - {n}| == 0;
    }

    /**
     `_read`. It reports exactly the record the directory stands for, after which the marker has one
     name, and refuses only if a system call failed. Whatever it does, the record stays.
    */
    method Read() returns (loaded: Loaded<R>)
      requires Valid()
      modifies this
      ensures Valid() && old(history) <= history && Kept(|old(history)|, old(Stored())) && Stored() == old(Stored())
      ensures calls >= old(calls) && fs.names.Keys <= old(fs).names.Keys
      ensures loaded.Absent? ==> Stored().None?
      ensures loaded.Found? ==> Stored() == Some(loaded.record)
      ensures loaded.Found? ==> Names(loaded.identity)
      ensures loaded.Refused? ==> Faulted(old(calls))
    {
      hide Safe, Record, Faithful, Keeps, Links;
      MarkerIsWhole(codec, fs);
      NoStates(codec, history, Stored());
      var answer := Call();
      if answer == 0 { return Refused; }
      if Marker !in fs.names { return Absent; }
      var inode := fs.names[Marker];
      var links := Links(fs, inode);
      var healed := Heal(inode, links);
      if !healed { return Refused; }
      loaded := ReadSettled(inode);
    }

    /** The rest of `_read`: identity, contents, identity again, and decoding. */
    method ReadSettled(inode: Inode) returns (loaded: Loaded<R>)
      requires Valid() && Marker in fs.names && fs.names[Marker] == inode && Links(fs, inode) == 1
      modifies `calls
      ensures Valid() && calls >= old(calls) && !loaded.Absent?
      ensures loaded.Found? ==> Stored() == Some(loaded.record) && loaded.identity == inode
      ensures loaded.Refused? ==> Faulted(old(calls))
    {
      hide Safe, Record, Faithful, Links;
      MarkerIsWhole(codec, fs);
      var content := fs.data[inode];
      var identity := Identity();
      if identity.None? || content == [] { return Refused; }
      var read := Call();
      if read == 0 { return Refused; }
      var again := Identity();
      if again != identity { return Refused; }
      var record := codec.decode(content);
      loaded := if record.None? then Refused else Found(record.value, inode);
    }

    /** `_replace`: the marker must still be the file that was read, and the update is read back. */
    method Replace(record: R, identity: Inode, hex: nat) returns (ok: bool)
      requires Valid()
      modifies this
      ensures Valid() && old(history) <= history
      ensures Switches(codec, history, |old(history)|, old(Stored()), Some(record))
      ensures ok ==> Stored() == Some(record)
      ensures !ok ==> Faulted(old(calls)) || !old(Names(identity)) || |codec.encode(record)| > MAX_POISON_BYTES
                      || Temp(hex) in old(fs).names
      ensures !old(Names(identity)) ==> !ok && history == old(history)
    {
      hide Safe, Record, Faithful, Keeps, Links;
      ghost var base, before := |history|, Stored();
      NoStates(codec, history, before);
      NoSwitch(codec, history, base, before, Some(record));
      var observed := Identity();
      if observed != Some(identity) || |codec.encode(record)| > MAX_POISON_BYTES { return false; }
      ok := WritePrivate(record, hex);
      if !ok { return; }
      ghost var written := history;
      var loaded := Read();
      SwitchesBetween(codec, old(history), written, history, base, before, Some(record));
      ok := loaded.Found? && loaded.record == record;
    }

    /** There is a record, the update accepts it, and the updated record is not too large. */
    predicate Writable(record: Option<R>, update: R -> Option<R>)
    {
      && record.Some? && update(record.value).Some?
      && |codec.encode(update(record.value).value)| <= MAX_POISON_BYTES
    }

    /**
     `_transition`: read the record, refuse if `update` does, and replace it. Every state on the way
     stands for the record before or the updated one, and there is one switch between them.
    */
    method Transition(update: R -> Option<R>, hex: nat) returns (ok: bool)
      requires Valid()
      modifies this
      ensures Valid() && old(history) <= history
      ensures Switches(codec, history, |old(history)|, old(Stored()), Updated(old(Stored()), update))
      ensures ok ==> old(Stored()).Some? && update(old(Stored()).value).Some? && Stored() == update(old(Stored()).value)
      ensures !ok ==> Faulted(old(calls)) || !Writable(old(Stored()), update) || Temp(hex) in old(fs).names
    {
      hide Safe, Record, Faithful, Keeps, Links;
      ghost var base, before := |history|, Stored();
      var loaded := Read();
      ghost var read := history;
      NoSwitch(codec, history, base, before, Updated(before, update));
      if !loaded.Found? { return false; }
      var next := update(loaded.record);
      if next.None? { return false; }
      ok := Replace(next.value, loaded.identity, hex);
      NoStates(codec, history, next);
      SwitchesBetween(codec, read, history, history, base, before, next);
    }

    /** `disarm` and the end of `recover`: read the record, and clear it if `accept` does not object. */
    method Retire(accept: R -> bool) returns (ok: bool)
      requires Valid()
      modifies this
      ensures Valid() && old(history) <= history
      ensures Switches(codec, history, |old(history)|, old(Stored()), None)
      ensures old(Stored()).Some? && !accept(old(Stored()).value) ==> Stored() == old(Stored())
      ensures ok ==> old(Stored()).Some? && accept(old(Stored()).value) && Stored().None?
      ensures !ok ==> Faulted(old(calls)) || old(Stored()).None? || !accept(old(Stored()).value)
    {
      hide Safe, Record, Faithful, Keeps, Links;
      ghost var base, before := |history|, Stored();
      var loaded := Read();
      ghost var read := history;
      NoSwitch(codec, history, base, before, None);
      if !loaded.Found? { return false; }
      if !accept(loaded.record) { return false; }
      ok := Clear(loaded.identity);
      NoStates(codec, history, None);
      SwitchesBetween(codec, read, history, history, base, before, None);
    }

    /** The last of these states, and what came after it, stand for the new record. */
    lemma SwitchLast(linked: seq<Fs>, states: seq<Fs>, base: nat, record: R)
      requires base < |linked| && Keeps(codec, linked, base, |linked| - 1, None)
      requires Safe(codec, linked[|linked| - 1]) && Record(codec, linked[|linked| - 1]) == Some(record)
      requires Valid() && Stored() == Some(record) && states == history
      requires (history == linked + [fs] || history == linked)
      ensures Switches(codec, states, base, None, Some(record))
    {
      var k: nat := |linked| - 1;
      assert Keeps(codec, states, base, k, None) && Keeps(codec, states, k, |states|, Some(record));
    }
  }

  ghost function Updated<R>(record: Option<R>, update: R -> Option<R>): Option<R>
  {
    if record.Some? && update(record.value).Some? then update(record.value) else record
  }

  /**
   A process that starts after a crash reads what the directory stands for at the crash: for any state
   an operation passed through, that is the record before it or the record after it, whole. Reading
   keeps that record and leaves the marker under one name.
  */
  method ReadAfterCrash<R(==,!new)>(codec: Codec<R>, states: seq<Fs>, from: nat, crash: nat,
        ghost before: Option<R>, ghost after: Option<R>)
    returns (loaded: Loaded<R>, healed: Fs)
    requires Faithful(codec) && from <= crash < |states| && Switches(codec, states, from, before, after)
    ensures Safe(codec, states[crash]) && Record(codec, states[crash]) in {before, after}
    ensures loaded.Absent? <==> Record(codec, states[crash]).None?
    ensures loaded.Found? ==> Record(codec, states[crash]) == Some(loaded.record)
    ensures loaded.Found? ==> Marker in healed.names && healed.names[Marker] == loaded.identity
    ensures loaded.Found? ==> Links(healed, loaded.identity) == 1
    ensures Safe(codec, healed) && Record(codec, healed) == Record(codec, states[crash])
    ensures !loaded.Refused?
  {
    ghost var k :| && from <= k <= |states|
                   && Keeps(codec, states, from, k, before) && Keeps(codec, states, k, |states|, after);
    var store := new MarkerStore(codec, n => 1, states[crash]);
    loaded := store.Read();
    healed := store.fs;
  }
}
