/**
 The three Redis keys of a session's code: the version counter, the version of the saved snapshot, and the snapshot.
 A missing number reads as 0, as in both scripts. Of the snapshot only its version is kept.
 */
module CodeStore {
  import opened Basics

  datatype Keys = Keys(counter: nat, saved: nat, code: Option<int>) {

    /** nextCodeVersionScript: the version issued is the new value of the counter. */
    function Issue(): Keys {
      this.(counter := (if saved > counter then saved else counter) + 1)
    }

    /** saveCodeStateScript */
    function Save(version: int): Keys {
      if version > 0 then
        if saved >= version then this else this.(saved := version, code := Some(version))
      else this.(code := Some(version))
    }

    /** The snapshot is the one whose version is in the saved key, or an unversioned one from before any was saved. */
    ghost predicate Agree() {
      && (saved > 0 ==> code == Some(saved))
      && (saved == 0 ==> code == None || code.value <= 0)
    }
  }

  /** A snapshot without a negative version, or none at all. */
  predicate Unsigned(code: Option<int>) {
    code.Some? ==> code.value >= 0
  }

  /** Saving versioned snapshots in any order leaves the newest of them: an older one never replaces a newer one. */
  lemma SaveKeepsNewest(k: Keys, version: int)
    requires k.Agree() && version > 0
    ensures var t := k.Save(version);
            && t.Agree() && t.counter == k.counter
            && t.saved == (if k.saved < version then version else k.saved)
            && t.code == Some(t.saved)
  {
  }

  lemma SavesCommute(k: Keys, v: int, w: int)
    requires k.Agree() && v > 0 && w > 0
    ensures k.Save(v).Save(w) == k.Save(w).Save(v)
  {
  }

  class RedisStore {
    var counter: nat
    var saved: nat
    var code: Option<int>

    function View(): Keys
      reads this
    {
      Keys(counter, saved, code)
    }

    /** A version above every version issued before and above the saved one, even when the counter key is gone. */
    method NextCodeVersion() returns (version: int)
      modifies this`counter
      ensures View() == old(View()).Issue() && version == counter
      ensures version > old(counter) && version > saved
    {
      var current := counter;
      if saved > current {
        current := saved;
      }
      version := current + 1;
      counter := version;
    }

    method SaveCodeState(version: int) returns (written: bool)
      modifies this`saved, this`code
      ensures View() == old(View()).Save(version)
      ensures written <==> version <= 0 || version > old(saved)
      ensures old(View()).Agree() && version > 0 ==> View().Agree() && saved >= version && saved >= old(saved)
    {
      if version > 0 {
        if saved >= version {
          return false;
        }
        saved := version;
      }
      code := Some(version);
      written := true;
    }
  }
}
