/** `pending.py`: the durable recovery records, read, modified, written and verified under one lock. */
module Pending {
  import opened Prelude

  function UpperChar(c: char): char
  {
    if 'a' <= c <= 'z' then c - 'a' + 'A' else c
  }

  /** `address.upper()`, for the ASCII of Bluetooth addresses */
  function Upper(s: string): (u: string)
    ensures |u| == |s|
  {
    seq(|s|, i requires 0 <= i < |s| => UpperChar(s[i]))
  }

  /**
   What an atomic file replacement can come to: the new content, the old content with the
   failure only logged, or either of them with an exception on the way out.
   */
  datatype Fate = Written | Lost | WrittenThenRaised | LostThenRaised

  /** The records a file holds; a missing file holds none. */
  function Records<T>(file: Option<map<string, T>>): map<string, T>
  {
    if file.None? then map[] else file.value
  }

  class PendingStore<T(==)> {
    var file: Option<map<string, T>>

    constructor ()
      ensures file == None
    {
      file := None;
    }

    /** `async_get_pending` */
    method Get(address: string) returns (record: Option<T>)
      ensures record == if Upper(address) in Records(file) then Some(Records(file)[Upper(address)]) else None
    {
      var fixtures := Records(file);
      return if Upper(address) in fixtures then Some(fixtures[Upper(address)]) else None;
    }

    /**
     `async_save_pending`: returning is proof the record is durable, under either case of its
     address, beside every other record as it was; raising leaves the old file or the new one.
     */
    method Save(address: string, record: T, fate: Fate) returns (ok: bool)
      modifies this
      ensures ok ==> file == Some(Records(old(file))[Upper(address) := record])
      ensures !ok ==> file == old(file) || file == Some(Records(old(file))[Upper(address) := record])
      ensures forall other :: other != Upper(address) ==>
                (other in Records(file) <==> other in Records(old(file)))
                && (other in Records(file) ==> Records(file)[other] == Records(old(file))[other])
    {
      var fixtures := Records(file);
      fixtures := fixtures[Upper(address) := record];
      var expected := Some(fixtures);
      if fate.Written? || fate.WrittenThenRaised? {
        file := expected;
      }
      if fate.WrittenThenRaised? || fate.LostThenRaised? {
        return false;
      }
      return file == expected;
    }

    /**
     `async_remove_pending`: the last record takes the file with it. Returning is proof that the
     record is gone unless it was the last one: removing the file is not read back, so a loss
     that is only logged goes unseen exactly there.
     */
    method Remove(address: string, fate: Fate) returns (ok: bool)
      modifies this
      ensures ok ==> (Upper(address) in Records(file)
                      <==> fate.Lost? && Records(old(file)).Keys == {Upper(address)})
      ensures !ok ==> Records(file) == Records(old(file)) || Records(file) == Records(old(file)) - {Upper(address)}
      ensures forall other :: other != Upper(address) ==>
                (other in Records(file) <==> other in Records(old(file)))
                && (other in Records(file) ==> Records(file)[other] == Records(old(file))[other])
    {
      var fixtures := Records(file);
      if Upper(address) !in fixtures {
        return true;
      }
      fixtures := fixtures - {Upper(address)};
      if fixtures == map[] {
        assert forall other :: other in Records(file) && other != Upper(address) ==> other in fixtures;
        if fate.Written? || fate.WrittenThenRaised? {
          file := None;
        }
        return !(fate.WrittenThenRaised? || fate.LostThenRaised?);
      }
      if fate.Written? || fate.WrittenThenRaised? {
        file := Some(fixtures);
      }
      if fate.WrittenThenRaised? || fate.LostThenRaised? {
        return false;
      }
      return file == Some(fixtures);
    }
  }
}
