/** The Agent's bounded buffer of undelivered payloads, kept in a text file that every operation rewrites. */
module Buffer {
  import opened LineFile

  /** entries[len - cap:] when there are more than cap entries; a slice past the end is empty. */
  function Overflow<P>(cap: int, entries: seq<P>): (dropped: nat)
    ensures dropped <= |entries|
  {
    if |entries| <= cap then 0 else if cap < 0 then |entries| else |entries| - cap
  }

  function Retained<P>(cap: int, entries: seq<P>): seq<P> {
    entries[Overflow(cap, entries)..]
  }

  function Evicted<P>(cap: int, entries: seq<P>): seq<P> {
    entries[..Overflow(cap, entries)]
  }

  function Smaller(a: nat, b: nat): nat {
    if a < b then a else b
  }

  /** Whether the file can be read and written at the moment is up to the disk. */
  class FileBuffer<P(==, !new)> {
    const codec: Codec<P>
    const maxEntries: int
    var text: string
    var readable: bool
    var writable: bool
    ghost var evicted: seq<P>
    ghost var torn: seq<P>

    constructor (codec: Codec<P>, maxEntries: int, text: string)
      ensures this.codec == codec && this.maxEntries == maxEntries
      ensures this.text == text && readable && writable && evicted == torn == []
    {
      this.codec := codec;
      this.maxEntries := maxEntries;
      this.text := text;
      readable, writable := true, true;
      evicted, torn := [], [];
    }

    /** What a read of the file would give: an unreadable file counts as empty. */
    function Entries(): seq<P>
      reads this
    {
      if readable then ReadAll(codec, text) else []
    }

    /** The disk works, and a line of the file yields the record it was written for or none. */
    ghost predicate Healthy()
      reads this
    {
      readable && writable && forall record: P :: Sound(codec, record)
    }

    method Read() returns (payloads: seq<P>)
      ensures payloads == Entries()
    {
      if !readable {
        return [];
      }
      var lines := SplitLines(Universal(text));
      payloads := [];
      var i := 0;
      while i < |lines|
        invariant 0 <= i <= |lines|
        invariant payloads == Records(codec, lines[..i])
      {
        assert lines[..i + 1] == lines[..i] + [lines[i]];
        RecordsConcat(codec, lines[..i], [lines[i]]);
        if !Blank(lines[i]) {
          var parsed := codec.parse(lines[i]);
          if parsed.Some? {
            payloads := payloads + [parsed.value];
          }
        }
        i := i + 1;
      }
      assert lines[..i] == lines;
    }

    /** The file is replaced as a whole or, when the write fails, left as it was. */
    method Write(entries: seq<P>)
      modifies `text, `torn
      ensures text == if writable then WriteAll(codec, entries) else old(text)
      ensures torn == if writable then old(torn) + Torn(codec, entries) else old(torn)
      ensures old(Healthy()) ==> Healthy() && Entries() == Survivors(codec, entries)
    {
      if writable {
        text := WriteAll(codec, entries);
        torn := torn + Torn(codec, entries);
      }
      if AllSoundNow(entries) {
        SurvivorsAreReadBack(codec, entries);
      }
    }

    ghost predicate AllSoundNow(entries: seq<P>) {
      AllSound(codec, entries)
    }

    /** Append, evicting from the front what no longer fits; a record whose text is broken does not survive the write.
        An unreadable file is taken for an empty one and overwritten; a failed write loses the payload. */
    method Enqueue(payload: P)
      modifies `text, `evicted, `torn
      ensures var all := old(Entries()) + [payload];
        && text == (if writable then WriteAll(codec, Retained(maxEntries, all)) else old(text))
        && evicted == (if writable then old(evicted) + Evicted(maxEntries, all) else old(evicted))
        && torn == (if writable then old(torn) + Torn(codec, Retained(maxEntries, all)) else old(torn))
      ensures old(Healthy()) ==>
        Healthy() && Entries() == Survivors(codec, Retained(maxEntries, old(Entries()) + [payload]))
    {
      var entries := Read();
      entries := entries + [payload];
      ghost var all := entries;
      if |entries| > maxEntries {
        var dropped := |entries| - maxEntries;
        entries := if dropped <= |entries| then entries[dropped..] else [];
      }
      assert entries == Retained(maxEntries, all);
      if writable {
        evicted := evicted + Evicted(maxEntries, all);
      }
      Write(entries);
    }

    /** Remove and return the oldest entries, at most maxItems of them. */
    method Drain(maxItems: nat) returns (taken: seq<P>)
      modifies `text, `torn
      ensures var n := Smaller(maxItems, |old(Entries())|);
        && taken == old(Entries())[..n]
        && text == (if writable then WriteAll(codec, old(Entries())[n..]) else old(text))
        && torn == (if writable then old(torn) + Torn(codec, old(Entries())[n..]) else old(torn))
        && (old(Healthy()) ==> Healthy() && Entries() == Survivors(codec, old(Entries())[n..]))
    {
      var entries := Read();
      var n := Smaller(maxItems, |entries|);
      taken := entries[..n];
      Write(entries[n..]);
    }

    method Length() returns (n: nat)
      ensures n == |Entries()|
    {
      var entries := Read();
      n := |entries|;
    }
  }
}
