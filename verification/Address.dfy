/** Address text (src/rdaddr.c): splitting "host:port" and "[host]:port" into node and
    service, and printing a socket address that way. Texts hold no NUL character. */
module Address {

  /** What `rd_addrinfo_prepare` returns. */
  datatype Parsed =
    | Split(node: string, svc: string)
    | MissingClose
    | ServiceTooLong

  /** The first place of a character at or after `from`, or the length of the text. */
  function First(s: string, from: nat, c: char): (k: nat)
    requires from <= |s|
    ensures from <= k <= |s| && (k < |s| ==> s[k] == c) && forall i :: from <= i < k ==> s[i] != c
    decreases |s| - from
  {
    if from == |s| || s[from] == c then from else First(s, from + 1, c)
  }

  /** The last place of a character at or after `from` and before `upto`, or -1. */
  function Last(s: string, from: nat, upto: nat, c: char): (k: int)
    requires from <= upto <= |s|
    ensures k == -1 || (from <= k < upto && s[k] == c)
    ensures forall i :: from <= i < upto && k < i ==> s[i] != c
  {
    if upto == from then -1 else if s[upto - 1] == c then upto - 1 else Last(s, from, upto - 1, c)
  }

  function Take(s: string, n: nat): string {
    if n <= |s| then s[..n] else s
  }

  /** The character before a place; `before` is the byte in front of the text, which the
      program looks at when the text begins with its last colon. */
  function CharBefore(s: string, k: nat, before: char): char
    requires k <= |s|
  {
    if k == 0 then before else s[k - 1]
  }

  /** The colon that introduces the service: the last one from `from` on, if it follows
      no other and precedes something; otherwise -1. */
  function ServiceColon(s: string, from: nat, before: char): (k: int)
    requires from <= |s|
    ensures k == -1 || (from <= k < |s| - 1 && s[k] == ':')
  {
    var k := Last(s, from, |s|, ':');
    if k >= 0 && CharBefore(s, k, before) != ':' && k + 1 < |s| then k else -1
  }

  /** The node: as many characters from `start` on, but no more than 255. */
  function Node(s: string, start: nat, len: nat): string
    requires start <= |s|
  {
    Take(s[start..], Min(len, 255))
  }

  /** The text from `start` on, with the node taken to be `len` long if that is not zero,
      and the service after the colon `k`, if there is one. */
  function SplitAt(s: string, start: nat, len: nat, k: int): Parsed
    requires start + len <= |s| && (k == -1 || start <= k < |s|)
  {
    if k >= 0 then
      if |s| - k - 1 >= 64 then ServiceTooLong
      else Split(Node(s, start, if len == 0 then k - start else len), s[k + 1..])
    else Split(Node(s, start, if len == 0 then |s| - start else len), "")
  }

  function Min(a: nat, b: nat): nat {
    if a <= b then a else b
  }

  /** `rd_addrinfo_prepare` */
  function Parse(s: string, before: char): Parsed {
    if s != [] && s[0] == '[' then
      var close := First(s, 0, ']');
      if close == |s| then MissingClose
      else SplitAt(s, 1, close - 1, ServiceColon(s, close + 1, before))
    else SplitAt(s, 0, 0, ServiceColon(s, 0, before))
  }

  /** What follows the node in an unbracketed text. */
  function Tail(svc: string): string {
    if svc == "" then "" else ":" + svc
  }

  lemma SplitJoins(s: string, k: int)
    requires k == -1 || (0 <= k < |s| - 1 && s[k] == ':')
    ensures var r := SplitAt(s, 0, 0, k);
            r.Split? ==> |Tail(r.svc)| <= |s| && s == s[..|s| - |Tail(r.svc)|] + Tail(r.svc)
                         && r.node == Take(s[..|s| - |Tail(r.svc)|], 255)
  {
    assert s[0..] == s;
    if k >= 0 {
      assert s == s[..k] + (":" + s[k + 1..]);
      assert |":" + s[k + 1..]| == |s| - k;
      assert Take(s, Min(k, 255)) == Take(s[..k], 255);
    } else {
      assert s[..|s|] == s;
    }
  }

  /** An unbracketed text is its node, followed by a colon and the service if there is
      one; this does not depend on the byte in front of the text. A node of more than 255
      characters is cut. */
  lemma UnbracketedIsNodeAndService(s: string, before: char)
    requires s != [] ==> s[0] != '['
    ensures var r := Parse(s, before);
            r.Split? ==> |Tail(r.svc)| <= |s| && s == s[..|s| - |Tail(r.svc)|] + Tail(r.svc)
                         && r.node == Take(s[..|s| - |Tail(r.svc)|], 255)
  {
    SplitJoins(s, ServiceColon(s, 0, before));
  }

  /** The node in brackets is what the text begins with, up to the bracket at `close`,
      and a service is what it ends with, after a colon. */
  predicate BeginsWithNode(s: string, close: nat, r: Parsed)
    requires close < |s|
  {
    r.Split? ==>
      && |r.node| == close - 1 && s[..close + 1] == "[" + r.node + "]"
      && |Tail(r.svc)| <= |s| - close - 1 && s[|s| - |Tail(r.svc)|..] == Tail(r.svc)
  }

  /** The text up to a closing bracket is what the brackets enclose, in brackets. */
  lemma Enclosed(s: string, close: nat)
    requires 0 < close < |s| && s[0] == '[' && s[close] == ']'
    ensures s[..close + 1] == "[" + s[1..][..close - 1] + "]"
  {
    var inner := s[1..][..close - 1];
    var t := "[" + inner + "]";
    forall i | 0 <= i <= close
      ensures t[i] == s[i]
    {
      if 0 < i < close {
        assert t[i] == inner[i - 1] && inner[i - 1] == s[i];
      }
    }
  }

  lemma BracketedParts(s: string, close: nat, k: int)
    requires 1 < close <= 256 && close < |s| && s[0] == '[' && s[close] == ']'
    requires k == -1 || (close < k < |s| - 1 && s[k] == ':')
    ensures BeginsWithNode(s, close, SplitAt(s, 1, close - 1, k))
  {
    Enclosed(s, close);
    if k >= 0 {
      assert s[k..] == ":" + s[k + 1..];
    } else {
      assert s[|s|..] == "";
    }
  }

  /** A bracketed text begins with its node in brackets, if that is not empty and fits,
      and the service is what follows the last colon after the closing bracket, or empty. */
  lemma BracketedBeginsWithNode(s: string, before: char)
    requires 1 < First(s, 0, ']') <= 256 && First(s, 0, ']') < |s| && s[0] == '['
    ensures BeginsWithNode(s, First(s, 0, ']'), Parse(s, before))
  {
    var close := First(s, 0, ']');
    BracketedParts(s, close, ServiceColon(s, close + 1, before));
  }

  /** The last colon of a text; in a text that begins with a bracket, one after a closing
      bracket. */
  predicate LastColonAt(s: string, k: int) {
    && 0 <= k < |s| && s[k] == ':' && (forall i :: k < i < |s| ==> s[i] != ':')
    && (s[0] == '[' ==> exists i :: 0 <= i < k && s[i] == ']')
  }

  /** When a text is refused: an opening bracket is never closed, or what follows the last
      colon, where that introduces a service, is too long. */
  lemma RefusedIff(s: string, before: char)
    ensures Parse(s, before) == MissingClose <==> s != [] && s[0] == '[' && ']' !in s
    ensures Parse(s, before) == ServiceTooLong <==>
            exists k :: LastColonAt(s, k) && CharBefore(s, k, before) != ':' && |s| - k - 1 >= 64
  {
    if s != [] && s[0] == '[' && ']' in s {
      var close := First(s, 0, ']');
      LastColonIff(s, close + 1);
    } else if s == [] || s[0] != '[' {
      LastColonIff(s, 0);
    }
  }

  /** The search for the last colon finds it wherever there is one. */
  lemma LastColonIff(s: string, from: nat)
    requires from <= |s| && from == if s != [] && s[0] == '[' && ']' in s then First(s, 0, ']') + 1 else 0
    requires s != [] && s[0] == '[' ==> ']' in s
    ensures forall k :: LastColonAt(s, k) <==> k >= 0 && k == Last(s, from, |s|, ':')
  {
    forall k
      ensures LastColonAt(s, k) <==> k >= 0 && k == Last(s, from, |s|, ':')
    {
      if k >= 0 && k == Last(s, from, |s|, ':') && s[0] == '[' {
        assert s[from - 1] == ']';
      }
    }
  }

  /** The colon that introduces a service: the last one, which follows no other and has
      something after it. */
  predicate ServiceAt(s: string, before: char, k: int) {
    LastColonAt(s, k) && (if k == 0 then before else s[k - 1]) != ':' && k + 1 < |s|
  }

  /** The node of a text whose service begins behind `end`: what the brackets enclose, unless
      they are missing or enclose nothing; then everything up to `end`. */
  function NodeText(s: string, end: nat): string
    requires end <= |s| && (s != [] && s[0] == '[' ==> 1 <= end && ']' in s)
  {
    if s != [] && s[0] == '[' then
      if First(s, 0, ']') > 1 then s[1..First(s, 0, ']')] else s[1..end]
    else s[..end]
  }

  lemma NodeIs(s: string, start: nat, end: nat)
    requires start <= end <= |s|
    ensures Node(s, start, end - start) == Take(s[start..end], 255)
  {
    assert s[start..][..Min(end - start, 255)] == s[start..end][..Min(end - start, 255)];
  }

  /** The search for the colon finds it wherever there is one. */
  lemma ServiceIs(s: string, before: char, from: nat)
    requires from <= |s| && from == if s != [] && s[0] == '[' && ']' in s then First(s, 0, ']') + 1 else 0
    requires s != [] && s[0] == '[' ==> ']' in s
    ensures forall k :: ServiceAt(s, before, k) <==> k >= 0 && k == ServiceColon(s, from, before)
  {
    hide LastColonAt, First, Last;
    LastColonIff(s, from);
  }

  /** The two parts of a text, given the end of the node and the colon, if there is one. */
  function Parts(s: string, node: string, k: int): Parsed
    requires k == -1 || 0 <= k < |s|
  {
    if k >= 0 && |s| - k - 1 >= 64 then ServiceTooLong
    else Split(Take(node, 255), if k >= 0 then s[k + 1..] else "")
  }

  lemma UnbracketedParts(s: string, k: int)
    requires k == -1 || 0 <= k < |s|
    ensures SplitAt(s, 0, 0, k) == Parts(s, s[..if k >= 0 then k else |s|], k)
  {
    hide Node, Take;
    var end := if k >= 0 then k else |s|;
    NodeIs(s, 0, end);
    assert s[0..end] == s[..end];
  }

  lemma EnclosedParts(s: string, close: nat, k: int)
    requires 1 <= close < |s| && (k == -1 || close < k < |s|)
    ensures SplitAt(s, 1, close - 1, k) == Parts(s, if close > 1 then s[1..close] else s[1..if k >= 0 then k else |s|], k)
  {
    hide Node, Take;
    NodeIs(s, 1, if close > 1 then close else if k >= 0 then k else |s|);
  }

  /** The parts of every text that is not refused for its brackets. */
  lemma ParseParts(s: string, before: char, from: nat)
    requires from == if s != [] && s[0] == '[' && ']' in s then First(s, 0, ']') + 1 else 0
    requires s != [] && s[0] == '[' ==> ']' in s
    ensures var k := ServiceColon(s, from, before);
            Parse(s, before) == Parts(s, NodeText(s, if k >= 0 then k else |s|), k)
  {
    hide Take, ServiceColon, SplitAt, Parts;
    var k := ServiceColon(s, from, before);
    if from > 0 {
      EnclosedParts(s, from - 1, k);
    } else {
      UnbracketedParts(s, k);
    }
  }

  /** What every text that is not refused for its brackets is split into. */
  lemma ParseIs(s: string, before: char)
    requires s != [] && s[0] == '[' ==> ']' in s
    ensures forall k :: ServiceAt(s, before, k) ==>
              Parse(s, before) == if |s| - k - 1 >= 64 then ServiceTooLong else Split(Take(NodeText(s, k), 255), s[k + 1..])
    ensures (forall k :: !ServiceAt(s, before, k)) ==> Parse(s, before) == Split(Take(NodeText(s, |s|), 255), "")
  {
    hide Parse, Take, ServiceColon, NodeText, LastColonAt, First;
    var from := if s != [] && s[0] == '[' then First(s, 0, ']') + 1 else 0;
    var k := ServiceColon(s, from, before);
    ServiceIs(s, before, from);
    ParseParts(s, before, from);
    assert k >= 0 ==> ServiceAt(s, before, k);
  }

  // ----- round trips -----

  /** A port as it is printed. */
  predicate IsPort(port: string) {
    0 < |port| < 64 && ':' !in port && ']' !in port
  }

  function Printed4(host: string, port: string): string {
    host + ":" + port
  }

  function Printed6(host: string, port: string): string {
    "[" + host + "]:" + port
  }

  lemma PrintedParts4(host: string, port: string)
    requires IsPort(port)
    ensures var s := Printed4(host, port);
            && s[|host|] == ':' && s[|host| + 1..] == port && s[..|host|] == host
            && forall i :: |host| < i < |s| ==> s[i] != ':' && s[i] != ']'
  {
    var s := Printed4(host, port);
    assert forall i :: |host| < i < |s| ==> s[i] == port[i - |host| - 1];
  }

  /** The colon of a printed address is found, unless another one stands before it. */
  lemma PrintedColon4(host: string, port: string, before: char)
    requires IsPort(port)
    ensures ServiceColon(Printed4(host, port), 0, before)
            == if (if host == "" then before else host[|host| - 1]) == ':' then -1 else |host|
  {
    var s := Printed4(host, port);
    PrintedParts4(host, port);
    assert Last(s, 0, |s|, ':') == |host|;
    assert host != "" ==> s[|host| - 1] == host[|host| - 1];
  }

  lemma SplitPrinted4(host: string, port: string)
    requires IsPort(port) && |Printed4(host, port)| <= 255
    ensures SplitAt(Printed4(host, port), 0, 0, |host|) == Split(host, port)
    ensures SplitAt(Printed4(host, port), 0, 0, -1) != Split(host, port)
  {
    var s := Printed4(host, port);
    PrintedParts4(host, port);
    assert s[0..] == s;
  }

  /** When an address with a port, printed without brackets, reads back as it was. */
  lemma RoundTrip4Iff(host: string, port: string, before: char)
    requires IsPort(port) && |Printed4(host, port)| <= 255
    ensures Parse(Printed4(host, port), before) == Split(host, port) <==>
            if host == "" then before != ':' else host[0] != '[' && host[|host| - 1] != ':'
  {
    assert Printed4(host, port)[0] == if host == "" then ':' else host[0];
    if host != "" && host[0] == '[' {
      EnvelopedHost(host, port, before);
    } else {
      PrintedColon4(host, port, before);
      SplitPrinted4(host, port);
    }
  }

  /** A host that begins with a bracket is taken for one in brackets. */
  lemma EnvelopedHost(host: string, port: string, before: char)
    requires IsPort(port) && |Printed4(host, port)| <= 255 && host != "" && host[0] == '['
    ensures Parse(Printed4(host, port), before) != Split(host, port)
  {
    var s := Printed4(host, port);
    PrintedParts4(host, port);
    var close := First(s, 0, ']');
    if close < |s| {
      assert close < |host|;
      var k := ServiceColon(s, close + 1, before);
      assert k == -1 || k == |host|;
      NodeLength(s, 1, if close > 1 then close - 1 else if k >= 0 then k - 1 else |s| - 1);
    }
  }

  lemma NodeLength(s: string, start: nat, len: nat)
    requires start + len <= |s|
    ensures |Node(s, start, len)| == Min(len, 255)
  {
  }

  lemma PrintedParts6(host: string, port: string)
    requires IsPort(port)
    ensures var s := Printed6(host, port);
            && s[0] == '[' && s[|host| + 1] == ']' && s[|host| + 2] == ':' && s[|host| + 3..] == port
            && s[1..][..|host|] == host && (forall i :: 0 <= i < |host| ==> s[i + 1] == host[i])
            && forall i :: |host| + 2 < i < |s| ==> s[i] != ':' && s[i] != ']'
  {
    var s := Printed6(host, port);
    assert forall i :: |host| + 2 < i < |s| ==> s[i] == port[i - |host| - 3];
  }

  /** The first closing bracket is the printed one, unless the host has one. */
  lemma PrintedClose6(host: string, port: string)
    requires IsPort(port)
    ensures var close := First(Printed6(host, port), 0, ']');
            1 <= close <= |host| + 1 && (close == |host| + 1 <==> ']' !in host)
  {
    var s := Printed6(host, port);
    PrintedParts6(host, port);
    assert forall i :: 0 < i <= |host| ==> s[i] == host[i - 1];
  }

  lemma PrintedColon6(host: string, port: string, from: nat, before: char)
    requires IsPort(port) && from <= |host| + 2
    ensures ServiceColon(Printed6(host, port), from, before) == |host| + 2
  {
    var s := Printed6(host, port);
    PrintedParts6(host, port);
    assert Last(s, from, |s|, ':') == |host| + 2;
  }

  /** When one printed with brackets does. */
  lemma RoundTrip6Iff(host: string, port: string, before: char)
    requires IsPort(port) && |Printed6(host, port)| <= 255
    ensures Parse(Printed6(host, port), before) == Split(host, port) <==> host != "" && ']' !in host
  {
    var s := Printed6(host, port);
    PrintedParts6(host, port);
    PrintedClose6(host, port);
    var close := First(s, 0, ']');
    PrintedColon6(host, port, close + 1, before);
    hide First, ServiceColon, Printed6;
    NodeLength(s, 1, if close > 1 then close - 1 else |host| + 1);
  }
}
