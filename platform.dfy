/** The board services the receiver relies on, reduced to what the core observes:
    a millisecond clock that wraps at 2^32 (the ESP32's `unsigned long`), the
    serial line to the radio module, and the key/value settings store. */
module Platform {

  const WRAP: int := 0x1_0000_0000

  /** An `unsigned long` on the ESP32: 32 bits. */
  type U32 = x: int | 0 <= x < 0x1_0000_0000

  /** Unsigned 32-bit subtraction `a - b`, as C computes it on `unsigned long`. */
  function Sub32(a: U32, b: U32): (r: U32)
    ensures a >= b ==> r == a - b
    ensures a < b ==> r == a - b + WRAP
  {
    (a - b) % WRAP
  }

  /** Converting a count to `unsigned long`: reduction modulo 2^32. */
  function ToU32(x: int): (r: U32)
    ensures 0 <= x < WRAP ==> r == x
  {
    x % WRAP
  }

  /** The time measured as `millis() - start` is the time that passed, across a wrap
      of the counter too, as long as less than 2^32 milliseconds pass. */
  lemma ElapsedSince(t: int, ms: nat)
    requires ms < WRAP
    ensures Sub32(ToU32(t + ms), ToU32(t)) == ms
  {
    var q := t / WRAP;
    assert ToU32(t) == t - q * WRAP;
    if ToU32(t) + ms < WRAP {
      assert ToU32(t + ms) == ToU32(t) + ms;
    } else {
      assert ToU32(t + ms) == ToU32(t) + ms - WRAP;
    }
  }

  /** Reducing before or after an addition gives the same `unsigned long`. */
  lemma ToU32Shift(x: int, k: int)
    ensures ToU32(ToU32(x) + k) == ToU32(x + k)
  {
    var q := x / WRAP;
    assert ToU32(x) == x - q * WRAP;
    var y := ToU32(x) + k;
    assert x + k == y + q * WRAP;
    assert (y + q * WRAP) % WRAP == y % WRAP;
  }

  /** The board's time: milliseconds since start-up, which `millis()` reports
      modulo 2^32. It advances only when the program waits. */
  class Clock {
    var ticks: nat

    constructor (start: nat)
      ensures ticks == start
    {
      ticks := start;
    }

    /** `millis()`. */
    function Millis(): U32
      reads this
    {
      ToU32(ticks)
    }

    /** `delay(ms)`. */
    method Delay(ms: nat)
      modifies this
      ensures ticks == old(ticks) + ms
    {
      ticks := ticks + ms;
    }
  }

  /** `Serial1`: bytes the radio module has sent and the program has not read yet,
      and the lines the program has written to the module, oldest first. */
  class SerialPort {
    var rx: seq<char>
    var tx: seq<seq<char>>

    constructor ()
      ensures rx == [] && tx == []
    {
      rx, tx := [], [];
    }

    /** `Serial1.read()` after `Serial1.available()` said a byte is there. */
    method Read() returns (c: char)
      requires rx != []
      modifies this
      ensures c == old(rx)[0] && rx == old(rx)[1..] && tx == old(tx)
    {
      c := rx[0];
      rx := rx[1..];
    }

    /** `Serial1.println(line)`. */
    method PrintLine(line: seq<char>)
      modifies this
      ensures tx == old(tx) + [line] && rx == old(rx)
    {
      tx := tx + [line];
    }

    /** Bytes from the radio module arriving on the line. */
    method Arrive(bytes: seq<char>)
      modifies this
      ensures rx == old(rx) + bytes && tx == old(tx)
    {
      rx := rx + bytes;
    }

    /** `Serial1.readStringUntil('\n')`: the bytes before the first newline, which is
        consumed and dropped; everything pending when there is no newline. */
    method ReadStringUntilNewline() returns (line: seq<char>)
      requires rx != []
      modifies this
      ensures (line, rx) == SplitLine(old(rx)) && tx == old(tx)
    {
      var i := 0;
      while i < |rx| && rx[i] != '\n'
        invariant 0 <= i <= |rx|
        invariant forall k :: 0 <= k < i ==> rx[k] != '\n'
      {
        i := i + 1;
      }
      LineAt(rx, i);
      line := rx[..i];
      rx := if i < |rx| then rx[i + 1..] else [];
    }
  }

  /** The first line of `s` and what follows its newline. */
  function SplitLine(s: seq<char>): (r: (seq<char>, seq<char>))
    ensures '\n' !in r.0
    ensures |r.1| < |s| || s == []
    ensures '\n' in s ==> s == r.0 + ['\n'] + r.1
    ensures '\n' !in s ==> r == (s, [])
  {
    if s == [] then ([], [])
    else if s[0] == '\n' then ([], s[1..])
    else
      var t := SplitLine(s[1..]);
      assert s == [s[0]] + s[1..];
      ([s[0]] + t.0, t.1)
  }

  /** Splitting off a line keeps out any character the text did not hold. */
  lemma LineKeepsOut(s: seq<char>, c: char)
    requires c !in s
    ensures c !in SplitLine(s).0 && c !in SplitLine(s).1
  {
    if '\n' in s {
      assert s == SplitLine(s).0 + ['\n'] + SplitLine(s).1;
    }
  }

  lemma {:induction false} LineAt(s: seq<char>, i: nat)
    requires i <= |s|
    requires forall k :: 0 <= k < i ==> s[k] != '\n'
    requires i < |s| ==> s[i] == '\n'
    ensures SplitLine(s) == (s[..i], if i < |s| then s[i + 1..] else [])
  {
    if i == 0 {
      if s != [] {
        assert s[0] == '\n';
      }
    } else {
      assert s[0] != '\n';
      LineAt(s[1..], i - 1);
      var t := SplitLine(s[1..]);
      assert SplitLine(s) == ([s[0]] + t.0, t.1);
      assert [s[0]] + s[1..][..i - 1] == s[..i];
      if i < |s| {
        assert s[1..][i..] == s[i + 1..];
      }
    }
  }

  /** A value in the settings store. */
  datatype Pref = IntPref(i: int) | RealPref(r: real) | StrPref(s: string) | BoolPref(b: bool)

  /** `Preferences.getInt` and its siblings: the stored value when the key holds one
      of the right kind, the caller's default otherwise. */
  function GetInt(store: map<string, Pref>, key: string, default: int): int
  {
    if key in store && store[key].IntPref? then store[key].i else default
  }

  function GetReal(store: map<string, Pref>, key: string, default: real): real
  {
    if key in store && store[key].RealPref? then store[key].r else default
  }

  function GetString(store: map<string, Pref>, key: string, default: string): string
  {
    if key in store && store[key].StrPref? then store[key].s else default
  }

  function GetBool(store: map<string, Pref>, key: string, default: bool): bool
  {
    if key in store && store[key].BoolPref? then store[key].b else default
  }

  /** `Preferences`: the persistent key/value store behind every saved setting. */
  class Preferences {
    var store: map<string, Pref>

    constructor ()
      ensures store == map[]
    {
      store := map[];
    }

    method Put(key: string, v: Pref)
      modifies this
      ensures store == old(store)[key := v]
    {
      store := store[key := v];
    }

    method Remove(key: string)
      modifies this
      ensures store == old(store) - {key}
    {
      store := store - {key};
    }
  }
}
