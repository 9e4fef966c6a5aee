/**
  The state store: one transaction loads the file, migrating and validating it, changes
  the record, validates the result and replaces the file.
 */
module Store {
  import opened Wrappers
  import opened Text
  import opened Release
  import opened State
  import opened Changes
  import opened System
  import opened Migration

  const NEW_STATE: RuntimeState :=
    RuntimeState(SCHEMA_VERSION, Running, NO_DISCOVERY, NO_WATCHDOG, map[], map[], map[])

  /** What loading a file gives: a fresh record when there is none, and nothing when it is not valid. */
  function Loaded(x: Externals, file: Option<RuntimeState>): Option<RuntimeState> {
    match file
    case None => Some(NEW_STATE)
    case Some(s) =>
      match Migrated(x, s)
      case Some(t) => if StateValid(x, t) then Some(t) else None
      case None => None
  }

  lemma LoadedIsValid(x: Externals, file: Option<RuntimeState>)
    ensures Loaded(x, file).Some? ==> StateValid(x, Loaded(x, file).value)
    ensures file.Some? && StateValid(x, file.value) ==> Loaded(x, file) == file
  {
    if file.None? {
      assert !HasActive(NEW_STATE);
      assert AtMostOneActive(NEW_STATE);
    }
  }

  class StateStore {
    const x: Externals
    /** No system call fails. */
    const reliable: bool
    /** The state file, if there is one, and what a crash is sure to leave of it. */
    var file: Option<RuntimeState>
    var disk: Option<RuntimeState>

    constructor (x: Externals, reliable: bool, file: Option<RuntimeState>)
      ensures this.x == x && this.reliable == reliable && this.file == file && disk == file
    {
      this.x, this.reliable, this.file, disk := x, reliable, file, file;
    }

    /** The state file is read and decoded. */
    method Read() returns (ok: bool, contents: Option<RuntimeState>)
      ensures (ok ==> contents == file) && (reliable ==> ok)
    {
      ok, contents := *, *;
      if reliable {
        ok := true;
      }
      if ok {
        contents := file;
      }
    }

    /** A temporary file is written and synced; a failure may leave anything in it. */
    method WriteTemporary(s: RuntimeState) returns (ok: bool, temporary: RuntimeState)
      ensures (ok ==> temporary == s) && (reliable ==> ok)
    {
      ok, temporary := *, s;
      if reliable {
        ok := true;
      }
      if !ok {
        temporary := NEW_STATE.(schemaVersion := 0);
      }
    }

    /** loadLocked */
    method Load() returns (s: Option<RuntimeState>)
      ensures s.Some? ==> s == Loaded(x, file)
      ensures reliable ==> s == Loaded(x, file)
    {
      hide StateValid, Migrated;
      var readable, contents := Read();
      if !readable {
        return None;
      }
      if contents.None? {
        return Some(NEW_STATE);
      }
      var migrating := new StateFile(x, contents.value);
      var migrated := migrating.Migrate();
      if !migrated || !StateValid(x, migrating.Contents()) {
        return None;
      }
      s := Some(migrating.Contents());
    }

    /** saveLocked: a temporary file is written and synced, renamed over the state file, and the directory synced. */
    method Save(s: RuntimeState) returns (ok: bool)
      modifies this
      ensures ok ==> StateValid(x, s) && file == Some(s) && disk == Some(s)
      ensures !ok ==> disk == old(disk) && (file == old(file) || (file == Some(s) && StateValid(x, s)))
      ensures reliable ==> (ok <==> StateValid(x, s))
    {
      hide StateValid;
      if !StateValid(x, s) {
        return false;
      }
      var written, temporary := WriteTemporary(s);
      if !written {
        return false;
      }
      file := Some(temporary);
      ok := *;
      if reliable {
        ok := true;
      }
      if ok {
        disk := file;
      }
    }

    /**
      Update: one transaction. An acknowledged one is on disk; after an error the file holds
      the old record or, when only the last sync failed, the new one.
     */
    method Update(c: Change) returns (ok: bool)
      modifies this
      ensures var before := Loaded(x, old(file));
              && (ok ==> before.Some? && Accepted(x, before.value, c)
                          && file == Some(Effect(before.value, c).value) && disk == file)
              && (!ok ==> disk == old(disk)
                          && (file == old(file) ||
                              (before.Some? && Accepted(x, before.value, c) &&
                               file == Some(Effect(before.value, c).value))))
              && (reliable ==> (ok <==> before.Some? && Accepted(x, before.value, c)))
    {
      hide StateValid, Migrated, Effect, Loaded;
      var s := Load();
      if s.None? {
        return false;
      }
      var changed := Effect(s.value, c);
      if changed.Err? {
        return false;
      }
      ok := Save(changed.value);
    }
  }

  /** What the store leaves behind is what the system's transactions allow. */
  lemma UpdateIsAWrite(x: Externals, w: World, c: Change, file: RuntimeState, disk: RuntimeState, ok: bool)
    requires StateValid(x, w.visible) && StateValid(x, w.durable)
    requires ok ==> Accepted(x, w.visible, c) && file == Effect(w.visible, c).value && disk == file
    requires !ok ==> disk == w.durable &&
                     (file == w.visible || (Accepted(x, w.visible, c) && file == Effect(w.visible, c).value))
    ensures exists o :: Write(x, w, c, o).visible == file && Write(x, w, c, o).durable == disk &&
                        (ok <==> Acknowledged(x, w, c, o))
  {
    hide StateValid, Effect;
    var o := if ok then Saved else if file == w.visible then Lost else Unsynced;
    assert Write(x, w, c, o).visible == file && Write(x, w, c, o).durable == disk;
  }
}
