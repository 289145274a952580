/** The queue file on a disk that can fail any call and lose power between any two of them.

    A directory entry changed since its directory was last flushed may or may not survive a crash, so
    the disk keeps, beside what is visible, everything a crash can leave behind. */
module QueueStore {
  import opened QueueFile

  /** What the queue's path holds. `Torn` is a file whose data never reached stable storage. */
  datatype Content = Absent | Torn | Stored(queue: Queue)

  datatype Outcome = Done | Failed | Stopped

  datatype ReadResult = Bytes(content: Content) | NotExist | Unreadable {
    /** The content a restore writes back. */
    function Held(): Content {
      if Bytes? then content else Absent
    }
  }

  datatype LoadResult = Loaded(queue: Queue) | Missing | Corrupt

  datatype SaveResult = Saved | Refused | NotSaved | Unrestored | Lost

  class Disk {
    /** Directories on the path, numbered from the root 0 down to `depth`, which holds the file. */
    const depth: nat
    /** On a faultless disk every call succeeds and is completed. */
    const faultless: bool
    /** Directories `1..present` exist for the running system. */
    var present: nat
    /** `registered[d]`: directory `d` has been flushed since it got its child on the path. */
    var registered: seq<bool>
    var visible: Content
    /** What the file's own entry can be after a crash. */
    var entries: set<Content>
    var temp: Content
    var tempFlushed: bool

    ghost predicate Valid()
      reads this
    {
      && present <= depth && |registered| == depth
      && visible in entries
      && (present < depth ==> entries == {Absent})
    }

    ghost predicate PathRegistered()
      requires Valid()
      reads this
    {
      forall d | 0 <= d < present :: registered[d]
    }

    /** Everything the queue's path can hold, now or after a crash. */
    ghost function Possible(): set<Content>
      requires Valid()
      reads this
    {
      entries + (if PathRegistered() then {} else {Absent})
    }

    /** No crash can change what a reader finds. */
    ghost predicate Durable(content: Content)
      requires Valid()
      reads this
    {
      visible == content && Possible() == {content}
    }

    constructor (depth: nat, faultless: bool)
      ensures Valid() && this.depth == depth && this.faultless == faultless && Durable(Absent) && present == 0
    {
      this.depth, this.faultless := depth, faultless;
      present, registered := 0, seq(depth, d => false);
      visible, entries := Absent, {Absent};
      temp, tempFlushed := Absent, false;
    }

    /** Power loss: an unflushed directory name may vanish with all below it; otherwise the file's entry
        is any of those it had since the last flush. What is then on the disk stays. */
    method Crash()
      requires Valid()
      modifies this
      ensures Valid() && visible in old(Possible()) && Durable(visible)
    {
      var lost: int := *;
      if 0 <= lost < present && !registered[lost] {
        present, visible, entries := lost, Absent, {Absent};
      } else {
        var survivor :| survivor in entries;
        visible, entries := survivor, {survivor};
      }
      registered := seq(depth, d => true);
      temp, tempFlushed := Absent, false;
    }

    /** The run ends here: the process is killed, or the machine loses power. */
    method Interrupt()
      requires Valid()
      modifies this
      ensures Valid() && Possible() <= old(Possible())
    {
      var power: bool := *;
      if power {
        Crash();
      }
    }

    /** A call that changes nothing by itself may still fail or be cut short. */
    method Call() returns (o: Outcome)
      requires Valid()
      modifies this
      ensures Valid()
      ensures o != Stopped ==> unchanged(this)
      ensures Possible() <= old(Possible())
      ensures faultless ==> o == Done
    {
      o := *;
      o := if faultless then Done else o;
      if o == Stopped {
        Interrupt();
      }
    }

    /** `os.MkdirAll`: a failure may leave some of the directories behind. */
    method MakeDirectories() returns (o: Outcome)
      requires Valid()
      modifies this
      ensures Valid()
      ensures o == Done ==> present == depth
      ensures o != Stopped ==>
                visible == old(visible) && Possible() == old(Possible()) && temp == old(temp) &&
                tempFlushed == old(tempFlushed)
      ensures Possible() <= old(Possible())
      ensures faultless ==> o == Done
    {
      o := *;
      o := if faultless then Done else o;
      var made: int := *;
      made := if o == Done then depth else if present <= made <= depth then made else present;
      registered := registered[..present] + seq(depth - present, d => false);
      present := made;
      assert old(present) == depth ==> registered == old(registered);
      if o == Stopped {
        Interrupt();
      }
    }

    /** Create and fill the temporary file beside the target. */
    method WriteTemp(content: Content) returns (o: Outcome)
      requires Valid()
      modifies this
      ensures Valid()
      ensures o != Stopped ==> visible == old(visible) && Possible() == old(Possible()) && present == old(present)
      ensures o == Done ==> temp == content
      ensures Possible() <= old(Possible())
      ensures faultless ==> o == Done
    {
      o := Call();
      if o != Stopped {
        temp, tempFlushed := content, false;
      }
    }

    method FlushTemp() returns (o: Outcome)
      requires Valid()
      modifies this
      ensures Valid()
      ensures o != Stopped ==>
                visible == old(visible) && Possible() == old(Possible()) && present == old(present) && temp == old(temp)
      ensures o == Done ==> tempFlushed
      ensures Possible() <= old(Possible())
      ensures faultless ==> o == Done
    {
      o := Call();
      if o == Done {
        tempFlushed := true;
      }
    }

    /** `os.ReadFile`: absence is reported only of an absent file; any read may fail for another reason. */
    method ReadFile() returns (r: ReadResult)
      ensures r.NotExist? ==> visible == Absent
      ensures r.Bytes? ==> r.content == visible && visible != Absent
      ensures faultless ==> !r.Unreadable?
    {
      var readable: bool := *;
      r := if !readable && !faultless then Unreadable else if visible == Absent then NotExist else Bytes(visible);
    }

    /** Rename the temporary file over the target. A file renamed before its data was flushed may be
        torn after a crash. */
    method Replace() returns (o: Outcome)
      requires Valid() && present == depth
      modifies this
      ensures Valid()
      ensures o == Failed ==> visible == old(visible)
      ensures o == Done ==> visible == old(temp)
      ensures o != Stopped ==> present == depth
      ensures Possible() <= old(Possible()) + {old(temp)} + (if old(tempFlushed) then {} else {Torn})
      ensures faultless ==> o == Done
    {
      o := *;
      o := if faultless then Done else o;
      if o != Failed {
        entries := entries + {temp} + (if tempFlushed then {} else {Torn});
        visible := temp;
      }
      if o == Stopped {
        Interrupt();
      }
    }

    method Remove() returns (o: Outcome)
      requires Valid()
      modifies this
      ensures Valid()
      ensures o == Failed ==> visible == old(visible)
      ensures o == Done ==> visible == Absent
      ensures o != Stopped ==> present == old(present)
      ensures Possible() <= old(Possible()) + {Absent}
      ensures faultless ==> o == Done
    {
      o := *;
      o := if faultless then Done else o;
      if o != Failed {
        entries, visible := entries + {Absent}, Absent;
      }
      if o == Stopped {
        Interrupt();
      }
    }

    /** `syncDir`: flushing a directory registers the entries it holds: a child directory's name, or the
        queue file's. A failed flush guarantees nothing. */
    method FlushDirectory(d: nat) returns (o: Outcome)
      requires Valid() && d <= depth
      modifies this
      ensures Valid()
      ensures o != Stopped ==> visible == old(visible) && present == old(present)
      ensures o != Stopped ==> registered == (if o == Done && d < present then old(registered)[d := true]
              else old(registered))
      ensures o != Stopped ==> entries == (if o == Done && d == depth then {visible} else old(entries))
      ensures Possible() <= old(Possible())
      ensures faultless ==> o == Done
    {
      o := *;
      o := if faultless then Done else o;
      if o == Done {
        if d < present {
          registered := registered[d := true];
        }
        if d == depth {
          entries := {visible};
        }
      }
      if o == Stopped {
        Interrupt();
      }
    }

    /** `flushQueueDirAncestors`: collect the directories above the queue's own, deepest first, then flush
        them shallowest first. */
    method FlushAncestors() returns (o: Outcome)
      requires Valid() && present == depth
      modifies this
      ensures Valid()
      ensures o != Stopped ==> visible == old(visible) && entries == old(entries) && present == old(present)
      ensures o == Done ==> PathRegistered()
      ensures Possible() <= old(Possible())
      ensures faultless ==> o == Done
    {
      var ancestors: seq<nat> := [];
      var d := depth;
      while d > 0
        invariant d <= depth && |ancestors| == depth - d
        invariant forall k | 0 <= k < |ancestors| :: ancestors[k] == depth - 1 - k
      {
        d := d - 1;
        ancestors := ancestors + [d];
      }
      var i := |ancestors|;
      while i > 0
        invariant 0 <= i <= |ancestors| && Valid() && present == depth
        invariant visible == old(visible) && entries == old(entries)
        invariant forall d | 0 <= d < depth - i :: registered[d]
        invariant Possible() <= old(Possible())
      {
        i := i - 1;
        o := FlushDirectory(ancestors[i]);
        if o != Done {
          return;
        }
      }
      o := Done;
    }

    /** `Load`: anything that cannot be trusted entirely is refused entirely. */
    method Load() returns (r: LoadResult)
      ensures r.Loaded? ==> visible == Stored(r.queue) && r.queue.Consistent()
      ensures r.Missing? ==> visible == Absent
      ensures faultless && visible.Stored? && visible.queue.Consistent() ==> r == Loaded(visible.queue)
      ensures faultless && visible.Absent? ==> r.Missing?
      ensures visible.Torn? || (visible.Stored? && !visible.queue.Consistent()) ==> r.Corrupt?
    {
      var read := ReadFile();
      r := match read
        case NotExist => Missing
        case Unreadable => Corrupt
        case Bytes(content) => if content.Stored? && content.queue.Consistent() then Loaded(content.queue) else Corrupt;
    }

    /** `restoreQueueFile`: put back what the file held before an unconfirmed replacement. */
    method Restore(previous: ReadResult) returns (o: Outcome)
      requires Valid() && present == depth
      modifies this
      ensures Valid()
      ensures o == Done ==> visible == previous.Held() && !previous.Unreadable?
      ensures o == Failed ==> visible == old(visible) || (visible == previous.Held() && !previous.Unreadable?)
      ensures Possible() <= old(Possible()) + (if previous.Unreadable? then {} else {previous.Held()})
    {
      if previous.Unreadable? {
        return Failed;
      }
      if previous.NotExist? {
        o := Remove();
      } else {
        o := WriteTemp(previous.content);
        if o == Done {
          o := FlushTemp();
        }
        if o == Done {
          o := Replace();
        }
      }
      if o == Done {
        o := FlushDirectory(depth);
      }
    }

    /** `flushFailedAfterReplace` */
    method FlushFailedAfterReplace(previous: ReadResult) returns (r: SaveResult)
      requires Valid() && present == depth
      modifies this
      ensures Valid() && r in {NotSaved, Unrestored, Lost}
      ensures r == NotSaved ==> visible == previous.Held() && !previous.Unreadable?
      ensures r == Unrestored ==> visible == old(visible) || (visible == previous.Held() && !previous.Unreadable?)
      ensures Possible() <= old(Possible()) + (if previous.Unreadable? then {} else {previous.Held()})
    {
      var o := Restore(previous);
      r := match o case Done => NotSaved case Failed => Unrestored case Stopped => Lost;
    }

    /** `Save`: temporary file, flush, replace, flush the directory and every ancestor. */
    method Save(queue: Queue) returns (r: SaveResult)
      requires Valid()
      modifies this
      ensures Valid()
      // A reported success survives every later crash, names of the directories included.
      ensures r == Saved ==> queue.Consistent() && Durable(Stored(queue))
      // A failure without the unrestored mark leaves the file as it was.
      ensures r in {Refused, NotSaved} ==> visible == old(visible)
      ensures r == Unrestored ==> visible in {old(visible), Stored(queue)}
      // However it ends, nothing but the old contents and the new one can be found later.
      ensures Possible() <= old(Possible()) + {Stored(queue)}
      ensures r == Refused <==> !queue.Consistent()
      // Without a fault a consistent queue is saved.
      ensures faultless && queue.Consistent() ==> r == Saved
    {
      if !queue.Consistent() {
        return Refused;
      }
      var o := MakeDirectories();
      if o == Done {
        o := WriteTemp(Stored(queue));
      }
      if o == Done {
        o := FlushTemp();
      }
      if o != Done {
        return if o == Stopped then Lost else NotSaved;
      }
      var previous := ReadFile();
      o := Replace();
      if o != Done {
        return if o == Stopped then Lost else NotSaved;
      }
      o := FlushDirectory(depth);
      if o == Done {
        o := FlushAncestors();
      }
      if o == Failed {
        r := FlushFailedAfterReplace(previous);
      } else {
        r := if o == Done then Saved else Lost;
      }
    }

    /** Save, then lose power any number of times, then read: the saved queue is found, whole. */
    method SaveThenCrash(queue: Queue, crashes: nat) returns (saved: SaveResult, found: LoadResult)
      requires Valid()
      modifies this
      ensures Valid()
      ensures saved == Saved ==> found == Loaded(queue) || found == Corrupt
      ensures saved == Saved ==> Durable(Stored(queue))
    {
      saved := Save(queue);
      for n := 0 to crashes
        invariant Valid() && (saved == Saved ==> Durable(Stored(queue)))
      {
        Crash();
      }
      found := Load();
    }
  }
}
