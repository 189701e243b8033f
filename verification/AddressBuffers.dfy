/** The functions of src/rdaddr.c on their static buffers: the two of
    `rd_addrinfo_prepare`, and the 32 that `rd_sockaddr2str` uses in turn. */
module AddressBuffers {
  import opened Address
  import opened CText

  // ----- the rotating result buffers -----

  /** The buffers and the one used last. */
  datatype Ring = Ring(slots: seq<string>, last: nat)

  predicate IsRing(r: Ring) {
    |r.slots| == 32 && r.last < 32
  }

  /** The next buffer gets the text. */
  function Put(r: Ring, text: string): (r': Ring)
    requires IsRing(r)
    ensures IsRing(r')
  {
    var next := (r.last + 1) % 32;
    Ring(r.slots[next := text], next)
  }

  function PutAll(r: Ring, texts: seq<string>): (r': Ring)
    requires IsRing(r)
    ensures IsRing(r')
  {
    if texts == [] then r else Put(PutAll(r, texts[..|texts| - 1]), texts[|texts| - 1])
  }

  lemma NextPlace(k: nat)
    ensures (k % 32 + 1) % 32 == (k + 1) % 32
  {
  }

  lemma OtherPlace(k: nat, n: nat)
    requires k < 32 && 0 < n < 32
    ensures (k + n) % 32 != k
  {
  }

  lemma {:induction false} LastAfter(r: Ring, texts: seq<string>)
    requires IsRing(r)
    ensures PutAll(r, texts).last == (r.last + |texts|) % 32
  {
    if texts != [] {
      LastAfter(r, texts[..|texts| - 1]);
      NextPlace(r.last + |texts| - 1);
    }
  }

  /** A text that was returned stays what it was through the next 31 calls. */
  lemma {:induction false} StableFor31(r: Ring, text: string, texts: seq<string>)
    requires IsRing(r) && |texts| <= 31
    ensures var r' := Put(r, text); PutAll(r', texts).slots[r'.last] == text
  {
    if texts != [] {
      var n := |texts| - 1;
      StableFor31(r, text, texts[..n]);
      LastAfter(Put(r, text), texts[..n]);
      OtherPlace(Put(r, text).last, n + 1);
      NextPlace(Put(r, text).last + n);
    }
  }

  lemma WrapsAround(k: nat)
    requires k < 32
    ensures ((k + 31) % 32 + 1) % 32 == k
  {
    if k > 0 { assert (k + 31) % 32 == k - 1; }
  }

  lemma PutPlace(r: Ring, text: string)
    requires IsRing(r)
    ensures Put(r, text).last == (r.last + 1) % 32 && Put(r, text).slots[Put(r, text).last] == text
  {
  }

  lemma LastPut(r: Ring, texts: seq<string>, n: nat)
    requires IsRing(r) && |texts| == n + 1
    ensures PutAll(r, texts) == Put(PutAll(r, texts[..n]), texts[n])
  {
  }

  /** The 32nd call after it overwrites it. */
  lemma OverwrittenBy32nd(r: Ring, text: string, texts: seq<string>)
    requires IsRing(r) && |texts| == 32
    ensures var r' := Put(r, text); PutAll(r', texts).slots[r'.last] == texts[31]
  {
    hide Put, PutAll;
    var r' := Put(r, text);
    var r31 := PutAll(r', texts[..31]);
    LastAfter(r', texts[..31]);
    WrapsAround(r'.last);
    LastPut(r', texts, 31);
    PutPlace(r31, texts[31]);
  }

  // ----- printing -----

  datatype Family = Inet | Inet6 | Other

  datatype Flags = Flags(port: bool, resolve: bool, family: bool)

  /** How a name lookup ends. */
  datatype Lookup = Found(host: string, port: string) | Again | Failed

  /** What precedes the host. */
  function Prefix(family: Family, flags: Flags): string {
    (if flags.family then (if family.Inet? then "ipv4#" else "ipv6#") else "")
    + (if flags.port && family.Inet6? then "[" else "")
  }

  function Suffix(family: Family, flags: Flags, port: string): string {
    if flags.port then (if family.Inet6? then "]:" else ":") + port else ""
  }

  /** The lookup that decides: by name if asked for and the resolver does not put us
      off, else by number. */
  function Deciding(flags: Flags, byName: Lookup, byNumber: Lookup): Lookup {
    if flags.resolve && byName != Again then byName else byNumber
  }

  /** The text for an address. */
  function Text(family: Family, flags: Flags, byName: Lookup, byNumber: Lookup): string {
    var l := Deciding(flags, byName, byNumber);
    if !family.Other? && l.Found? then Cut(Prefix(family, flags) + l.host + Suffix(family, flags, l.port))
    else Cut("<unsupported:" + FamilyName(family) + ">")
  }

  function FamilyName(family: Family): string {
    match family
    case Inet => "inet"
    case Inet6 => "inet6"
    case Other => "af?"
  }

  /** With the port and without the family, an address is printed in one of the two forms. */
  lemma TextWithPort(family: Family, flags: Flags, byName: Lookup, byNumber: Lookup)
    requires !family.Other? && flags.port && !flags.family && Deciding(flags, byName, byNumber).Found?
    ensures var l := Deciding(flags, byName, byNumber);
            Text(family, flags, byName, byNumber) == Cut(PrintedForm(family, l.host, l.port))
  {
    var l := Deciding(flags, byName, byNumber);
    if family.Inet6? {
      assert Prefix(family, flags) == "[" && Suffix(family, flags, l.port) == "]:" + l.port;
      assert "[" + l.host + ("]:" + l.port) == Printed6(l.host, l.port);
    } else {
      assert Prefix(family, flags) == "" && Suffix(family, flags, l.port) == ":" + l.port;
      assert "" + l.host + (":" + l.port) == Printed4(l.host, l.port);
    }
  }

  /** How the pieces go together: the host alone without flags; the family in front of what
      is printed without it; a fixed text where there is no address to print. */
  lemma TextParts(family: Family, flags: Flags, byName: Lookup, byNumber: Lookup)
    ensures var l := if flags.resolve && byName != Again then byName else byNumber;
            var text := Text(family, flags, byName, byNumber);
            && (family == Other ==> text == "<unsupported:af?>")
            && (family == Inet && !l.Found? ==> text == "<unsupported:inet>")
            && (family == Inet6 && !l.Found? ==> text == "<unsupported:inet6>")
            && (family != Other && l.Found? && !flags.family && !flags.port ==> text == Cut(l.host))
            && (family != Other && l.Found? && flags.family ==>
                  text == Cut((if family == Inet then "ipv4#" else "ipv6#") + Plain(family, flags.port, l.host, l.port)))
            && (family != Other && l.Found? && !flags.family ==> text == Cut(Plain(family, flags.port, l.host, l.port)))
  {
    var l := Deciding(flags, byName, byNumber);
    if l.Found? && family != Other {
      PlainText(family, flags, l.host, l.port);
      hide Prefix, Suffix, PrintedForm, Cut;
      assert "" + Plain(family, flags.port, l.host, l.port) == Plain(family, flags.port, l.host, l.port);
    }
  }

  /** The address without its family. */
  function Plain(family: Family, withPort: bool, host: string, port: string): string {
    if withPort then PrintedForm(family, host, port) else host
  }

  lemma PlainText(family: Family, flags: Flags, host: string, port: string)
    requires family != Other
    ensures var mark := if flags.family then (if family == Inet then "ipv4#" else "ipv6#") else "";
            Prefix(family, flags) + host + Suffix(family, flags, port) == mark + Plain(family, flags.port, host, port)
  {
    var mark := if flags.family then (if family == Inet then "ipv4#" else "ipv6#") else "";
    if !flags.port {
      assert mark + "" + host + "" == mark + host;
    } else if family == Inet6 {
      assert mark + "[" + host + ("]:" + port) == mark + ("[" + host + "]:" + port);
    } else {
      assert mark + "" + host + (":" + port) == mark + (host + ":" + port);
    }
  }

  function PrintedForm(family: Family, host: string, port: string): string {
    if family.Inet6? then Printed6(host, port) else Printed4(host, port)
  }

  /** When what was looked up reads back from what is printed of it. */
  predicate ReadsBack(family: Family, host: string, before: char) {
    if family.Inet6? then host != "" && ']' !in host
    else if host == "" then before != ':'
    else host[0] != '[' && host[|host| - 1] != ':'
  }

  lemma FormReadsBackIff(family: Family, host: string, port: string, before: char)
    requires IsPort(port) && |PrintedForm(family, host, port)| <= 255
    ensures Parse(PrintedForm(family, host, port), before) == Split(host, port) <==> ReadsBack(family, host, before)
  {
    if family.Inet6? {
      RoundTrip6Iff(host, port, before);
    } else {
      RoundTrip4Iff(host, port, before);
    }
  }

  /** An address printed with its port, and without its family, reads back as the host
      and port looked up, exactly if its host has no bracket or colon at the wrong place. */
  lemma PrintedReadsBackIff(family: Family, flags: Flags, byName: Lookup, byNumber: Lookup, before: char)
    requires !family.Other? && flags.port && !flags.family
    requires var l := Deciding(flags, byName, byNumber);
             l.Found? && IsPort(l.port) && |PrintedForm(family, l.host, l.port)| <= 255
    ensures var l := Deciding(flags, byName, byNumber);
            Parse(Text(family, flags, byName, byNumber), before) == Split(l.host, l.port) <==> ReadsBack(family, l.host, before)
  {
    var l := Deciding(flags, byName, byNumber);
    FormReadsBackIff(family, l.host, l.port, before);
    TextWithPort(family, flags, byName, byNumber);
    assert Text(family, flags, byName, byNumber) == PrintedForm(family, l.host, l.port);
  }

  // ----- the program -----

  /** The static variables of the two functions, one set per thread. */
  class Statics {
    var snode: string
    var ssvc: string
    var ret: seq<string>
    var reti: nat

    constructor ()
      ensures Valid() && snode == "" && ssvc == ""
    {
      snode, ssvc, ret, reti := "", "", seq(32, _ => ""), 0;
    }

    predicate Valid()
      reads this
    {
      |ret| == 32 && reti < 32
    }

    function View(): Ring
      reads this
    {
      Ring(ret, reti)
    }

    /** `strchr` from the beginning. */
    method Strchr(s: string, c: char) returns (k: nat)
      ensures k == First(s, 0, c)
    {
      k := 0;
      while k < |s| && s[k] != c
        invariant k <= |s| && First(s, k, c) == First(s, 0, c)
      {
        k := k + 1;
      }
    }

    /** `strrchr` */
    method Strrchr(s: string, from: nat, c: char) returns (k: int)
      requires from <= |s|
      ensures k == Last(s, from, |s|, c)
    {
      k := -1;
      var i := from;
      while i < |s|
        invariant from <= i <= |s| && k == Last(s, from, i, c)
      {
        if s[i] == c {
          k := i;
        }
        i := i + 1;
      }
    }

    /** The search for the colon that introduces the service. */
    method FindService(s: string, from: nat, before: char) returns (k: int)
      requires from <= |s|
      ensures k == ServiceColon(s, from, before)
    {
      k := Strrchr(s, from, ':');
      if k >= 0 && (CharBefore(s, k, before) == ':' || k + 1 == |s|) {
        k := -1;
      }
    }

    /** The node is copied, cut if need be. */
    method CopyNode(s: string, start: nat, len: nat)
      requires start + len <= |s| && snode == ""
      modifies this`snode
      ensures snode == Node(s, start, len)
    {
      if len > 0 {
        var nodelen := Min(len, 255);
        snode := s[start..][..nodelen];
      }
    }

    /** The second half of `rd_addrinfo_prepare`: the service, and the node. */
    method SplitText(s: string, start: nat, len: nat, svct: int) returns (r: Parsed)
      requires start + len <= |s| && (svct == -1 || start <= svct < |s|) && snode == "" && ssvc == ""
      modifies this`snode, this`ssvc
      ensures r == SplitAt(s, start, len, svct)
      ensures if r.Split? then snode == r.node && ssvc == r.svc else snode == "" && ssvc == ""
    {
      var nodelen := len;
      if svct >= 0 {
        if |s| - svct - 1 >= 64 {
          return ServiceTooLong;
        }
        ssvc := s[svct + 1..];
        if nodelen == 0 {
          nodelen := svct - start;
        }
      } else if nodelen == 0 {
        nodelen := |s| - start;
      }
      CopyNode(s, start, nodelen);
      r := Split(snode, ssvc);
    }

    /** `rd_addrinfo_prepare`; on success the results are in the two buffers. */
    method Prepare(s: string, before: char) returns (r: Parsed)
      modifies this`snode, this`ssvc
      ensures r == Parse(s, before)
      ensures if r.Split? then snode == r.node && ssvc == r.svc else snode == "" && ssvc == ""
    {
      snode, ssvc := "", "";
      if |s| > 0 && s[0] == '[' {
        var t := Strchr(s, ']');
        if t == |s| {
          return MissingClose;
        }
        var svct := FindService(s, t + 1, before);
        r := SplitText(s, 1, t - 1, svct);
      } else {
        var svct := FindService(s, 0, before);
        r := SplitText(s, 0, 0, svct);
      }
    }

    /** The lookup with its retry. */
    method LookUp(flags: Flags, byName: Lookup, byNumber: Lookup) returns (l: Lookup, lookups: nat)
      ensures l == Deciding(flags, byName, byNumber)
      ensures lookups == if flags.resolve && byName == Again then 2 else 1
    {
      var numeric := !flags.resolve;
      l := if numeric then byNumber else byName;
      lookups := 1;
      while l == Again && !numeric
        invariant lookups == if numeric && flags.resolve then 2 else 1
        invariant l == if numeric then byNumber else byName
        invariant numeric ==> !flags.resolve || byName == Again
        invariant !numeric ==> flags.resolve
        decreases !numeric
      {
        numeric := true;
        l := byNumber;
        lookups := lookups + 1;
      }
    }

    /** The current buffer gets prefix, host and, if asked for, the port. */
    method WriteFound(family: Family, flags: Flags, l: Lookup)
      requires Valid() && l.Found? && |Prefix(family, flags) + l.host| <= 255
      modifies `ret
      ensures ret == old(ret)[reti := Cut(Prefix(family, flags) + l.host + Suffix(family, flags, l.port))]
    {
      hide Prefix;
      ret := ret[reti := Prefix(family, flags)];
      ret := ret[reti := ret[reti] + l.host];
      if flags.port {
        hide Suffix;
        ret := ret[reti := Cut(ret[reti] + Suffix(family, flags, l.port))];
      } else {
        assert Prefix(family, flags) + l.host + "" == Prefix(family, flags) + l.host;
      }
    }

    /** `rd_sockaddr2str`: the text is in the buffer `slot`, all others are untouched, on
        every path. The lookup is retried at most once, and only by number. */
    method SockaddrToString(family: Family, flags: Flags, byName: Lookup, byNumber: Lookup) returns (slot: nat, lookups: nat)
      requires Valid() && forall l :: l in [byName, byNumber] && l.Found? ==> |Prefix(family, flags) + l.host| <= 255
      modifies this`ret, this`reti
      ensures Valid() && View() == Put(old(View()), Text(family, flags, byName, byNumber)) && slot == reti
      ensures lookups == if family.Other? then 0 else if flags.resolve && byName == Again then 2 else 1
    {
      reti := (reti + 1) % 32;
      slot, lookups := reti, 0;
      if !family.Other? {
        var l;
        l, lookups := LookUp(flags, byName, byNumber);
        if l.Found? {
          assert l in [byName, byNumber];
          WriteFound(family, flags, l);
          return;
        }
      }
      ret := ret[reti := Cut("<unsupported:" + FamilyName(family) + ">")];
    }
  }
}
