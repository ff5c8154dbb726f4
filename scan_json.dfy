/** The network list `handleScan` returns: `{"n":[{"s":"<ssid>","r":<rssi>},...]}`,
    at most 15 entries, hidden (empty) names skipped, and each name escaped for a
    JSON string by replacing `\` and then `"` with their backslash escapes. Only
    those two characters are escaped, which is less than section 7 of RFC 8259
    asks for (control characters pass through). */
module ScanJson {
  import opened Text

  /** `WIFI_SCAN_FAILED`, the count `WiFi.scanNetworks` reports when the scan failed. */
  const WIFI_SCAN_FAILED: int := -2

  /** The most entries one answer lists. */
  const MAX_SCAN_ENTRIES: nat := 15

  /** One scan result: `WiFi.SSID(i)` and `WiFi.RSSI(i)`. */
  datatype Network = Network(ssid: string, rssi: int)

  /** Arduino `String::replace` with a one-character pattern: every occurrence, left
      to right, is replaced by `rep`. */
  function ReplaceChar(s: string, c: char, rep: string): (r: string)
    ensures c !in s ==> r == s
  {
    if s == [] then []
    else (if s[0] == c then rep else [s[0]]) + ReplaceChar(s[1..], c, rep)
  }

  lemma {:induction false} ReplaceCharConcat(a: string, b: string, c: char, rep: string)
    ensures ReplaceChar(a + b, c, rep) == ReplaceChar(a, c, rep) + ReplaceChar(b, c, rep)
  {
    if a != [] {
      var h := if a[0] == c then rep else [a[0]];
      assert (a + b)[0] == a[0] && (a + b)[1..] == a[1..] + b;
      assert ReplaceChar(a + b, c, rep) == h + ReplaceChar(a[1..] + b, c, rep);
      ReplaceCharConcat(a[1..], b, c, rep);
      assert ReplaceChar(a, c, rep) == h + ReplaceChar(a[1..], c, rep);
      Append3(h, ReplaceChar(a[1..], c, rep), ReplaceChar(b, c, rep));
    } else {
      assert a + b == b;
    }
  }

  /** The two `replace` calls of `handleScan`, in their order. */
  function Escape(s: string): string
  {
    ReplaceChar(ReplaceChar(s, '\\', "\\\\"), '"', "\\\"")
  }

  /** The escape of one character, as RFC 8259 writes `\` and `"`. */
  function EscapeChar(c: char): string
  {
    if c == '\\' then "\\\\" else if c == '"' then "\\\"" else [c]
  }

  /** Escaping character by character: the reference the two replacements are held to. */
  function EscapeEach(s: string): string
  {
    if s == [] then [] else EscapeChar(s[0]) + EscapeEach(s[1..])
  }

  /** Replacing `\` first and `"` second escapes every character exactly once: the
      backslash the second pass inserts is not doubled again. */
  lemma {:induction false} EscapeIsPerChar(s: string)
    ensures Escape(s) == EscapeEach(s)
  {
    if s != [] {
      var head := if s[0] == '\\' then "\\\\" else [s[0]];
      assert ReplaceChar(s, '\\', "\\\\") == head + ReplaceChar(s[1..], '\\', "\\\\");
      ReplaceCharConcat(head, ReplaceChar(s[1..], '\\', "\\\\"), '"', "\\\"");
      assert ReplaceChar(head, '"', "\\\"") == EscapeChar(s[0]);
      EscapeIsPerChar(s[1..]);
    }
  }

  /** Reading a JSON string body back: a backslash takes the next character literally. */
  function Unescape(t: string): string
  {
    if t == [] then []
    else if t[0] == '\\' && |t| >= 2 then [t[1]] + Unescape(t[2..])
    else [t[0]] + Unescape(t[1..])
  }

  lemma {:induction false} UnescapeEach(s: string)
    ensures Unescape(EscapeEach(s)) == s
  {
    if s != [] {
      var rest := EscapeEach(s[1..]);
      var t := EscapeChar(s[0]) + rest;
      if s[0] == '\\' || s[0] == '"' {
        assert t[2..] == rest;
      } else {
        assert t[1..] == rest;
      }
      UnescapeEach(s[1..]);
    }
  }

  /** A reader of the JSON gets every network name back exactly. */
  lemma EscapeRoundTrip(s: string)
    ensures Unescape(Escape(s)) == s
  {
    EscapeIsPerChar(s);
    UnescapeEach(s);
  }

  /** A string body that a JSON reader ends only at its closing quote: no bare `"`,
      and every backslash starts one of the two escapes. */
  predicate Quotable(t: string)
  {
    t == []
    || (|t| >= 2 && t[0] == '\\' && (t[1] == '\\' || t[1] == '"') && Quotable(t[2..]))
    || (t[0] != '\\' && t[0] != '"' && Quotable(t[1..]))
  }

  /** An escaped name can never close the `"s":"…"` string early. */
  lemma {:induction false} EscapedIsQuotable(s: string)
    ensures Quotable(Escape(s))
  {
    EscapeIsPerChar(s);
    EachIsQuotable(s);
  }

  lemma {:induction false} EachIsQuotable(s: string)
    ensures Quotable(EscapeEach(s))
  {
    if s != [] {
      var rest := EscapeEach(s[1..]);
      var t := EscapeChar(s[0]) + rest;
      EachIsQuotable(s[1..]);
      if s[0] == '\\' || s[0] == '"' {
        assert t[2..] == rest;
      } else {
        assert t[1..] == rest;
      }
    }
  }

  /** One entry of the list, the name escaped character by character. */
  function Entry(n: Network): string
  {
    "{\"s\":\"" + EscapeEach(n.ssid) + "\",\"r\":" + IntToDecimal(n.rssi) + "}"
  }

  /** The entries separated by commas, with no comma before the first or after the last. */
  function JsonList(nets: seq<Network>): string
  {
    if nets == [] then []
    else if |nets| == 1 then Entry(nets[0])
    else JsonList(nets[..|nets| - 1]) + "," + Entry(nets[|nets| - 1])
  }

  /** The networks with a name, in scan order. */
  function Kept(nets: seq<Network>): (r: seq<Network>)
    ensures |r| <= |nets|
  {
    if nets == [] then []
    else Kept(nets[..|nets| - 1]) + (if nets[|nets| - 1].ssid != [] then [nets[|nets| - 1]] else [])
  }

  /** How many results the loop looks at: none after a failed scan (or any other
      negative count). */
  function Visible(count: int): nat
  {
    if count < 0 then 0 else count
  }

  /** The entries of the answer: the first 15 named networks among the reported ones. */
  function Emitted(found: seq<Network>, count: int): seq<Network>
    requires count <= |found|
  {
    var k := Kept(found[..Visible(count)]);
    if |k| <= MAX_SCAN_ENTRIES then k else k[..MAX_SCAN_ENTRIES]
  }

  /** The body `handleScan` sends. */
  function ScanBody(found: seq<Network>, count: int): string
    requires count <= |found|
  {
    "{\"n\":[" + JsonList(Emitted(found, count)) + "]}"
  }

  /** A network is kept exactly when it has a name. */
  lemma {:induction false} KeptMembers(nets: seq<Network>)
    ensures forall x :: x in Kept(nets) <==> x in nets && x.ssid != []
  {
    if nets != [] {
      var init := nets[..|nets| - 1];
      KeptMembers(init);
      assert nets == init + [nets[|nets| - 1]];
    }
  }

  /** What is kept from a prefix is a prefix of what is kept from the whole. */
  lemma {:induction false} KeptPrefix(nets: seq<Network>, i: nat)
    requires i <= |nets|
    ensures |Kept(nets[..i])| <= |Kept(nets)|
    ensures Kept(nets)[..|Kept(nets[..i])|] == Kept(nets[..i])
    decreases |nets|
  {
    if i < |nets| {
      var init := nets[..|nets| - 1];
      assert nets[..i] == init[..i];
      KeptPrefix(init, i);
    } else {
      assert nets[..i] == nets;
    }
  }

  /** The answer lists at most 15 networks, each of them named and reported by the
      scan; when fewer than 15 named networks were found, it lists all of them. */
  lemma ScanEntries(found: seq<Network>, count: int)
    requires count <= |found|
    ensures var e := Emitted(found, count);
      && |e| <= MAX_SCAN_ENTRIES
      && (forall x :: x in e ==> x in found[..Visible(count)] && x.ssid != [])
      && (|Kept(found[..Visible(count)])| <= MAX_SCAN_ENTRIES ==>
            forall x :: x in found[..Visible(count)] && x.ssid != [] ==> x in e)
  {
    var k := Kept(found[..Visible(count)]);
    KeptMembers(found[..Visible(count)]);
    forall x | x in Emitted(found, count)
      ensures x in k
    {
      if |k| > MAX_SCAN_ENTRIES {
        var i :| 0 <= i < MAX_SCAN_ENTRIES && k[..MAX_SCAN_ENTRIES][i] == x;
        assert k[i] == x;
      }
    }
  }

  /** Looking at one more result keeps the named ones seen so far and appends it when named. */
  lemma KeptStep(found: seq<Network>, i: nat)
    requires i < |found|
    ensures Kept(found[..i + 1]) == Kept(found[..i]) + (if found[i].ssid != [] then [found[i]] else [])
  {
    assert found[..i + 1][..i] == found[..i];
  }

  /** One more entry: a comma first unless the list is still empty. */
  lemma JsonListStep(nets: seq<Network>, x: Network)
    ensures JsonList(nets + [x]) == if nets == [] then Entry(x) else JsonList(nets) + "," + Entry(x)
  {
    assert (nets + [x])[..|nets|] == nets;
  }

  /** `handleScan` from the scan on: `found` holds what `WiFi.SSID(i)` and
      `WiFi.RSSI(i)` report for each index below `scanResult`. */
  method HandleScan(found: seq<Network>, scanResult: int) returns (j: string)
    requires scanResult <= |found|
    ensures j == ScanBody(found, scanResult)
  {
    var n := scanResult;
    if n == WIFI_SCAN_FAILED {
      n := 0;
    }
    ghost var head := "{\"n\":[";
    j := "{\"n\":[";
    var networksAdded := 0;
    var i := 0;
    while i < n && networksAdded < MAX_SCAN_ENTRIES
      invariant 0 <= i <= Visible(n) && Visible(n) == Visible(scanResult)
      invariant networksAdded == |Kept(found[..i])| <= MAX_SCAN_ENTRIES
      invariant j == head + JsonList(Kept(found[..i]))
    {
      KeptStep(found, i);
      var ssid := found[i].ssid;
      if |ssid| == 0 {
        assert Kept(found[..i + 1]) == Kept(found[..i]);
        i := i + 1;
      } else {
        ghost var listed := Kept(found[..i]);
        ghost var sep: string := if networksAdded > 0 then "," else "";
        ListedStep(listed, found[i], sep);
        if networksAdded > 0 {
          Append3(head, JsonList(listed), ",");
          j := j + ",";
        } else {
          assert JsonList(listed) + sep == [];
        }
        assert j == head + (JsonList(listed) + sep);
        ssid := ReplaceChar(ssid, '\\', "\\\\");
        ssid := ReplaceChar(ssid, '"', "\\\"");
        EscapeIsPerChar(found[i].ssid);
        var entry := "{\"s\":\"" + ssid + "\",\"r\":" + IntToDecimal(found[i].rssi) + "}";
        assert entry == Entry(found[i]);
        Append3(head, JsonList(listed) + sep, entry);
        j := j + entry;
        assert j == head + JsonList(Kept(found[..i + 1]));
        networksAdded := networksAdded + 1;
        i := i + 1;
      }
    }
    EmittedWhenDone(found, scanResult, i);
    Append3(head, JsonList(Kept(found[..i])), "]}");
    j := j + "]}";
  }

  /** Where the loop of `handleScan` stops, everything to be listed has been listed. */
  lemma EmittedWhenDone(found: seq<Network>, count: int, i: nat)
    requires count <= |found| && i <= Visible(count)
    requires |Kept(found[..i])| <= MAX_SCAN_ENTRIES
    requires i == Visible(count) || |Kept(found[..i])| == MAX_SCAN_ENTRIES
    ensures Emitted(found, count) == Kept(found[..i])
  {
    var all := found[..Visible(count)];
    KeptPrefix(all, i);
    assert all[..i] == found[..i];
    if i == Visible(count) {
      assert all == found[..i];
    }
  }

  lemma ListedStep(listed: seq<Network>, x: Network, sep: string)
    requires sep == if listed != [] then "," else ""
    ensures JsonList(listed + [x]) == (JsonList(listed) + sep) + Entry(x)
  {
    JsonListStep(listed, x);
  }

  lemma Append3(a: string, b: string, c: string)
    ensures (a + b) + c == a + (b + c)
  {
  }

  /** A hidden network is skipped without a stray comma, and a quote in a name is escaped. */
  lemma ScanBodyExample()
    ensures ScanBody([Network("Home\"1", -40), Network("", -90), Network("Lab", -71)], 3)
      == "{\"n\":[" + ("{\"s\":\"Home\\\"1\",\"r\":-40}" + "," + "{\"s\":\"Lab\",\"r\":-71}") + "]}"
  {
    var a, c := Network("Home\"1", -40), Network("Lab", -71);
    ExampleEmitted();
    assert [a, c][..1] == [a];
    assert JsonList([a, c]) == Entry(a) + "," + Entry(c);
    HomeEntry();
    LabEntry();
  }

  lemma ExampleEmitted()
    ensures Emitted([Network("Home\"1", -40), Network("", -90), Network("Lab", -71)], 3)
      == [Network("Home\"1", -40), Network("Lab", -71)]
  {
    var a, b, c := Network("Home\"1", -40), Network("", -90), Network("Lab", -71);
    var found := [a, b, c];
    assert found[..3] == found;
    assert found[..2] == [a, b] && [a, b][..1] == [a];
    assert Kept([a]) == [a];
    assert Kept([a, b]) == [a];
  }

  lemma HomeEntry()
    ensures Entry(Network("Home\"1", -40)) == "{\"s\":\"Home\\\"1\",\"r\":-40}"
  {
    EscapeExample();
    assert IntToDecimal(-40) == "-40";
  }

  lemma LabEntry()
    ensures Entry(Network("Lab", -71)) == "{\"s\":\"Lab\",\"r\":-71}"
  {
    assert EscapeEach("Lab") == "Lab";
    assert IntToDecimal(-71) == "-71";
  }

  /** A quote inside a name comes out as `\"`. */
  lemma EscapeExample()
    ensures EscapeEach("Home\"1") == "Home\\\"1"
  {
  }
}
