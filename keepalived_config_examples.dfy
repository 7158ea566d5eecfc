/**
 * Whole files through the parser, for any values: a well-formed instance
 * has every field read and its VIPs kept in file order, a second instance
 * overrides what it sets, and a bare `priority` or `virtual_router_id` line
 * fails the whole parse.
 *
 * A file is described by the stripped text of its lines, so a line may
 * carry any indentation and line ending. The proofs reason about the parts
 * of a line (keyword, blank, value) and never evaluate the text functions
 * on a whole literal line.
 */
module KeepalivedConfigExamples {
  import opened Wrappers
  import opened TextOps
  import opened KeepalivedConfig
  import opened KeepalivedConfigFacts

  // ---- the parts of a line ----

  /** A keyword line's text: the keyword, one blank and the value. */
  function KeywordText(w: string, v: string): string {
    w + " " + v
  }

  predicate BraceFree(s: string) {
    forall i :: 0 <= i < |s| ==> s[i] != '{' && s[i] != '}'
  }

  /** A value on a keyword line: one non-empty token without braces. */
  predicate Word(v: string) {
    v != [] && NoSpace(v) && BraceFree(v)
  }

  /**
   * A line of the VIP block as the parser keeps it: stripped, not a
   * comment, no braces, and not mistaken for a `vrrp_instance` or a
   * `virtual_ipaddress` line. It may hold blanks inside, as in
   * `10.0.0.5/24 dev eth0`.
   */
  predicate VipEntry(v: string) {
    v != [] && !IsSpace(v[0]) && !IsSpace(v[|v| - 1]) && v[0] != '#' && BraceFree(v) &&
    !StartsWith(v, "vrrp_instance") && !StartsWith(v, "virtual_ipaddress")
  }

  // ---- facts about the parts ----

  lemma {:induction false} CountAbsent(s: string, c: char)
    requires forall i :: 0 <= i < |s| ==> s[i] != c
    ensures Count(s, c) == 0
  {
    if s != [] {
      CountAbsent(s[1..], c);
    }
  }

  lemma {:induction false} CountAppend(a: string, b: string, c: char)
    ensures Count(a + b, c) == Count(a, c) + Count(b, c)
  {
    if a != [] {
      assert (a + b)[1..] == a[1..] + b;
      CountAppend(a[1..], b, c);
    } else {
      assert a + b == b;
    }
  }

  lemma NoBraces(s: string)
    requires BraceFree(s)
    ensures BraceDelta(s) == 0
  {
    CountAbsent(s, '{');
    CountAbsent(s, '}');
  }

  lemma OpensBlock(s: string)
    requires BraceFree(s)
    ensures BraceDelta(s + "{") == 1
  {
    NoBraces(s);
    CountAppend(s, "{", '{');
    CountAppend(s, "{", '}');
  }

  lemma BracesClose()
    ensures BraceDelta("}") == -1
  {
    CountAppend("", "}", '}');
    CountAppend("", "}", '{');
    assert "" + "}" == "}";
  }

  lemma NotPrefix(s: string, p: string, j: int)
    requires 0 <= j < |p| && j < |s| && s[j] != p[j]
    ensures !StartsWith(s, p)
  {
    if |p| <= |s| {
      assert s[..|p|][j] == s[j];
    }
  }

  /** Every character of `s` is its own lower case. */
  predicate LowerCaseText(s: string) {
    forall i :: 0 <= i < |s| ==> LowerChar(s[i]) == s[i]
  }

  lemma OneWord(b: string)
    requires b != [] && NoSpace(b)
    ensures Tokens(b) == [b]
  {
    assert b + "" == b;
    TokensOfWord(b, "");
    assert Tokens("") == [];
  }

  lemma SpacedWord(b: string)
    requires b != [] && NoSpace(b)
    ensures Tokens(" " + b) == [b]
  {
    LeadingOfPadded(" ", b);
    assert (" " + b)[1..] == b;
    OneWord(b);
  }

  /** A keyword line's text has no braces, has the value as its second token, and no whitespace at its ends. */
  lemma KeywordTextFacts(w: string, v: string)
    requires Word(w) && Word(v)
    ensures var s := KeywordText(w, v);
      BraceDelta(s) == 0 && SecondToken(s) == Some(v) &&
      s != [] && !IsSpace(s[0]) && !IsSpace(s[|s| - 1])
  {
    var s := KeywordText(w, v);
    forall i | 0 <= i < |s|
      ensures s[i] != '{' && s[i] != '}'
    {
      if i < |w| {
        assert s[i] == w[i];
      } else if i > |w| {
        assert s[i] == v[i - |w| - 1];
      }
    }
    NoBraces(s);
    assert s == w + (" " + v);
    TokensOfWord(w, " " + v);
    SpacedWord(v);
    assert s[|s| - 1] == v[|v| - 1];
  }

  /** A lower-case keyword and a blank begin the lower-cased keyword line, whatever the value's case. */
  lemma LowerKeywordText(w: string, v: string)
    requires LowerCaseText(w)
    ensures StartsWith(Lower(KeywordText(w, v)), w) && StartsWith(Lower(KeywordText(w, v)), w + " ")
  {
    var s := KeywordText(w, v);
    LowerAt(s);
    forall i | 0 <= i < |w| + 1
      ensures Lower(s)[i] == (w + " ")[i]
    {
      if i < |w| {
        assert s[i] == w[i];
      } else {
        assert s[i] == ' ';
      }
    }
    assert Lower(s)[..|w| + 1] == w + " ";
    assert Lower(s)[..|w|] == w;
  }

  // ---- what decides the step of one stripped line ----

  /** The state just inside an instance opened from outside every block. */
  const Opened: Parser := Parser(true, false, 1, Empty)

  /** A stripped line that opens an instance with one brace. */
  predicate OpensInstance(s: string) {
    StartsWith(s, "vrrp_instance") && BraceDelta(s) == 1
  }

  /** A stripped line that leaves the depth alone and is neither an instance line nor a VIP block opener. */
  predicate BodyLine(s: string) {
    BraceDelta(s) == 0 && !StartsWith(s, "vrrp_instance") && !StartsWith(s, "virtual_ipaddress")
  }

  /** A stripped line that opens the VIP block with one brace. */
  predicate OpensVipBlock(s: string) {
    BraceDelta(s) == 1 && !StartsWith(s, "vrrp_instance") && StartsWith(s, "virtual_ipaddress")
  }

  /** A stripped line that starts with `}` and closes one block. */
  predicate ClosesBlock(s: string) {
    BraceDelta(s) == -1 && StartsWith(s, "}") &&
    !StartsWith(s, "vrrp_instance") && !StartsWith(s, "virtual_ipaddress")
  }

  /** A body line that the first keyword test takes, with its value. */
  predicate SetsState(s: string, r: string) {
    BodyLine(s) && IsStateLine(s) && SecondToken(s) == Some(r)
  }

  predicate SetsInterface(s: string, i: string) {
    BodyLine(s) && !IsStateLine(s) && IsInterfaceLine(s) && SecondToken(s) == Some(i)
  }

  predicate SetsVrid(s: string, v: string) {
    BodyLine(s) && !IsStateLine(s) && !IsInterfaceLine(s) && IsVridLine(s) && SecondToken(s) == Some(v)
  }

  predicate SetsPriority(s: string, p: string) {
    BodyLine(s) && !IsStateLine(s) && !IsInterfaceLine(s) && !IsVridLine(s) && IsPriorityLine(s) &&
    SecondToken(s) == Some(p)
  }

  /** A body line that the VIP block keeps as an entry. */
  predicate KeptEntry(v: string) {
    BodyLine(v) && v != [] && !StartsWith(v, "#") && !StartsWith(v, "}")
  }

  // ---- the text of each line has those facts ----

  /** The line that opens an instance named `n`. */
  function OpenText(n: string): string {
    "vrrp_instance " + n + " " + "{"
  }

  const VipOpenText: string := "virtual_ipaddress " + "{"

  lemma OpenTextFacts(n: string)
    requires Word(n)
    ensures OpensInstance(OpenText(n))
  {
    var h := "vrrp_instance " + n + " ";
    forall k | 0 <= k < |h|
      ensures h[k] != '{' && h[k] != '}'
    {
      if 14 <= k < 14 + |n| {
        assert h[k] == n[k - 14];
      }
    }
    OpensBlock(h);
    assert OpenText(n)[..13] == "vrrp_instance";
  }

  lemma VipOpenTextFacts()
    ensures OpensVipBlock(VipOpenText)
  {
    OpensBlock("virtual_ipaddress ");
    NotPrefix(VipOpenText, "vrrp_instance", 1);
    assert VipOpenText[..17] == "virtual_ipaddress";
  }

  lemma CloseTextFacts()
    ensures ClosesBlock("}")
  {
    BracesClose();
    NotPrefix("}", "vrrp_instance", 0);
    NotPrefix("}", "virtual_ipaddress", 0);
  }

  lemma StateTextFacts(r: string)
    requires Word(r)
    ensures SetsState(KeywordText("state", r), r)
  {
    var s := KeywordText("state", r);
    KeywordTextFacts("state", r);
    LowerKeywordText("state", r);
    NotPrefix(s, "vrrp_instance", 0);
    NotPrefix(s, "virtual_ipaddress", 0);
  }

  lemma InterfaceTextFacts(i: string)
    requires Word(i)
    ensures SetsInterface(KeywordText("interface", i), i)
  {
    var s := KeywordText("interface", i);
    KeywordTextFacts("interface", i);
    LowerKeywordText("interface", i);
    NotPrefix(s, "vrrp_instance", 0);
    NotPrefix(s, "virtual_ipaddress", 0);
    NotPrefix(Lower(s), "state ", 0);
  }

  lemma VridTextFacts(v: string)
    requires Word(v)
    ensures SetsVrid(KeywordText("virtual_router_id", v), v)
  {
    KeywordTextFacts("virtual_router_id", v);
    VridNotBlock(v);
    VridTests(v);
  }

  lemma VridNotBlock(v: string)
    ensures !StartsWith(KeywordText("virtual_router_id", v), "vrrp_instance")
    ensures !StartsWith(KeywordText("virtual_router_id", v), "virtual_ipaddress")
  {
    NotPrefix(KeywordText("virtual_router_id", v), "vrrp_instance", 1);
    NotPrefix(KeywordText("virtual_router_id", v), "virtual_ipaddress", 8);
  }

  lemma VridTests(v: string)
    ensures var s := KeywordText("virtual_router_id", v);
      !IsStateLine(s) && !IsInterfaceLine(s) && IsVridLine(s)
  {
    var s := KeywordText("virtual_router_id", v);
    LowerKeywordText("virtual_router_id", v);
    NotPrefix(Lower(s), "state ", 0);
    NotPrefix(Lower(s), "interface ", 0);
  }

  lemma PriorityTextFacts(p: string)
    requires Word(p)
    ensures SetsPriority(KeywordText("priority", p), p)
  {
    var s := KeywordText("priority", p);
    KeywordTextFacts("priority", p);
    LowerKeywordText("priority", p);
    NotPrefix(s, "vrrp_instance", 0);
    NotPrefix(s, "virtual_ipaddress", 0);
    NotPrefix(Lower(s), "state ", 0);
    NotPrefix(Lower(s), "interface ", 0);
    NotPrefix(Lower(s), "virtual_router_id", 0);
  }

  lemma EntryFacts(v: string)
    requires VipEntry(v)
    ensures KeptEntry(v)
  {
    NoBraces(v);
    NotPrefix(v, "}", 0);
    NotPrefix(v, "#", 0);
  }

  // ---- one stripped line at a time, for any record ----

  lemma OpenStep(d: Config, s: string)
    requires OpensInstance(s)
    ensures Step(Parser(false, false, 0, d), s) == Ok(Opened.(data := d))
  {
    StepVrrp(Parser(false, false, 0, d), s);
  }

  lemma StateStep(d: Config, s: string, r: string)
    requires SetsState(s, r)
    ensures Step(Opened.(data := d), s) == Ok(Opened.(data := d.(state := Some(Upper(r)))))
  {
    StepKeywordZone(Opened.(data := d), s);
  }

  lemma InterfaceStep(d: Config, s: string, i: string)
    requires SetsInterface(s, i)
    ensures Step(Opened.(data := d), s) == Ok(Opened.(data := d.(iface := Some(i))))
  {
    StepKeywordZone(Opened.(data := d), s);
  }

  lemma VridStep(d: Config, s: string, v: string)
    requires SetsVrid(s, v)
    ensures Step(Opened.(data := d), s) == Ok(Opened.(data := d.(vrid := Some(v))))
  {
    StepKeywordZone(Opened.(data := d), s);
  }

  lemma PriorityStep(d: Config, s: string, p: string)
    requires SetsPriority(s, p)
    ensures Step(Opened.(data := d), s) == Ok(Opened.(data := d.(priority := Some(p))))
  {
    StepKeywordZone(Opened.(data := d), s);
  }

  lemma VipOpenStep(d: Config, s: string)
    requires OpensVipBlock(s)
    ensures Step(Opened.(data := d), s) == Ok(Parser(true, true, 2, d))
  {
    StepVipOpen(Opened.(data := d), s);
  }

  lemma VipStep(d: Config, v: string)
    requires KeptEntry(v)
    ensures Step(Parser(true, true, 2, d), v) == Ok(Parser(true, true, 2, d.(vips := d.vips + [v])))
  {
    StepInVipBlock(Parser(true, true, 2, d), v);
  }

  lemma VipCloseStep(d: Config, s: string)
    requires ClosesBlock(s)
    ensures Step(Parser(true, true, 2, d), s) == Ok(Opened.(data := d))
  {
    StepInVipBlock(Parser(true, true, 2, d), s);
  }

  lemma InstanceCloseStep(d: Config, s: string)
    requires ClosesBlock(s)
    ensures Step(Opened.(data := d), s) == Ok(Parser(false, false, 0, d))
  {
    StepClose(Opened.(data := d), s);
  }

  // ---- the lines of a file, each from the facts about its stripped text ----

  lemma OpenLink(lines: seq<string>, k: int, d: Config)
    requires 0 <= k < |lines| && OpensInstance(Trim(lines[k]))
    ensures Run(Parser(false, false, 0, d), lines[k..]) == Run(Opened.(data := d), lines[k + 1..])
  {
    OpenStep(d, Trim(lines[k]));
    AdvanceOk(Parser(false, false, 0, d), lines, k, Opened.(data := d));
  }

  lemma StateLink(lines: seq<string>, k: int, d: Config, r: string)
    requires 0 <= k < |lines| && SetsState(Trim(lines[k]), r)
    ensures Run(Opened.(data := d), lines[k..]) == Run(Opened.(data := d.(state := Some(Upper(r)))), lines[k + 1..])
  {
    StateStep(d, Trim(lines[k]), r);
    AdvanceOk(Opened.(data := d), lines, k, Opened.(data := d.(state := Some(Upper(r)))));
  }

  lemma InterfaceLink(lines: seq<string>, k: int, d: Config, i: string)
    requires 0 <= k < |lines| && SetsInterface(Trim(lines[k]), i)
    ensures Run(Opened.(data := d), lines[k..]) == Run(Opened.(data := d.(iface := Some(i))), lines[k + 1..])
  {
    InterfaceStep(d, Trim(lines[k]), i);
    AdvanceOk(Opened.(data := d), lines, k, Opened.(data := d.(iface := Some(i))));
  }

  lemma VridLink(lines: seq<string>, k: int, d: Config, v: string)
    requires 0 <= k < |lines| && SetsVrid(Trim(lines[k]), v)
    ensures Run(Opened.(data := d), lines[k..]) == Run(Opened.(data := d.(vrid := Some(v))), lines[k + 1..])
  {
    VridStep(d, Trim(lines[k]), v);
    AdvanceOk(Opened.(data := d), lines, k, Opened.(data := d.(vrid := Some(v))));
  }

  lemma PriorityLink(lines: seq<string>, k: int, d: Config, p: string)
    requires 0 <= k < |lines| && SetsPriority(Trim(lines[k]), p)
    ensures Run(Opened.(data := d), lines[k..]) == Run(Opened.(data := d.(priority := Some(p))), lines[k + 1..])
  {
    PriorityStep(d, Trim(lines[k]), p);
    AdvanceOk(Opened.(data := d), lines, k, Opened.(data := d.(priority := Some(p))));
  }

  lemma VipOpenLink(lines: seq<string>, k: int, d: Config)
    requires 0 <= k < |lines| && OpensVipBlock(Trim(lines[k]))
    ensures Run(Opened.(data := d), lines[k..]) == Run(Parser(true, true, 2, d), lines[k + 1..])
  {
    VipOpenStep(d, Trim(lines[k]));
    AdvanceOk(Opened.(data := d), lines, k, Parser(true, true, 2, d));
  }

  lemma VipCloseLink(lines: seq<string>, k: int, d: Config)
    requires 0 <= k < |lines| && ClosesBlock(Trim(lines[k]))
    ensures Run(Parser(true, true, 2, d), lines[k..]) == Run(Opened.(data := d), lines[k + 1..])
  {
    VipCloseStep(d, Trim(lines[k]));
    AdvanceOk(Parser(true, true, 2, d), lines, k, Opened.(data := d));
  }

  lemma InstanceCloseLink(lines: seq<string>, k: int, d: Config)
    requires 0 <= k < |lines| && ClosesBlock(Trim(lines[k]))
    ensures Run(Opened.(data := d), lines[k..]) == Run(Parser(false, false, 0, d), lines[k + 1..])
  {
    InstanceCloseStep(d, Trim(lines[k]));
    AdvanceOk(Opened.(data := d), lines, k, Parser(false, false, 0, d));
  }

  lemma Whole(lines: seq<string>)
    ensures lines[0..] == lines && lines[|lines|..] == []
  {
  }

  // ---- a well-formed instance ----

  /** The stripped lines of `block` are the VIP entries `vs`, in order. */
  predicate VipBlock(block: seq<string>, vs: seq<string>)
    decreases |vs|
  {
    |block| == |vs| &&
    (vs != [] ==> VipEntry(vs[0]) && Trim(block[0]) == vs[0] && VipBlock(block[1..], vs[1..]))
  }

  /**
   * The stripped lines of a file holding one instance named `n`: the
   * instance line, the four keyword lines (each the keyword, one blank and
   * the value), the line that opens the VIP block, one line per VIP entry,
   * and the two closing braces. Each line may carry any
   * indentation and line ending that `strip()` removes.
   */
  predicate InstanceLines(lines: seq<string>, n: string, r: string, i: string, v: string, p: string, vips: seq<string>) {
    |lines| == |vips| + 8 &&
    Trim(lines[0]) == OpenText(n) &&
    Trim(lines[1]) == KeywordText("state", r) &&
    Trim(lines[2]) == KeywordText("interface", i) &&
    Trim(lines[3]) == KeywordText("virtual_router_id", v) &&
    Trim(lines[4]) == KeywordText("priority", p) &&
    Trim(lines[5]) == VipOpenText &&
    VipBlock(lines[6..|vips| + 6], vips) &&
    Trim(lines[|vips| + 6]) == "}" && Trim(lines[|vips| + 7]) == "}"
  }

  /** The first six lines of an instance, by what decides their steps. */
  predicate HeaderFacts(lines: seq<string>, r: string, i: string, v: string, p: string) {
    6 <= |lines| &&
    OpensInstance(Trim(lines[0])) && SetsState(Trim(lines[1]), r) && SetsInterface(Trim(lines[2]), i) &&
    SetsVrid(Trim(lines[3]), v) && SetsPriority(Trim(lines[4]), p) && OpensVipBlock(Trim(lines[5]))
  }

  lemma HeaderText(lines: seq<string>, n: string, r: string, i: string, v: string, p: string, vips: seq<string>)
    requires Word(n) && Word(r) && Word(i) && Word(v) && Word(p) && InstanceLines(lines, n, r, i, v, p, vips)
    ensures HeaderFacts(lines, r, i, v, p)
    ensures ClosesBlock(Trim(lines[|vips| + 6])) && ClosesBlock(Trim(lines[|vips| + 7]))
  {
    OpenTextFacts(n);
    StateTextFacts(r);
    InterfaceTextFacts(i);
    VridTextFacts(v);
    PriorityTextFacts(p);
    VipOpenTextFacts();
    CloseTextFacts();
  }

  /** The instance line and the first two keyword lines, from outside every block. */
  lemma HeaderRunA(lines: seq<string>, r: string, i: string, d: Config)
    requires 3 <= |lines|
    requires OpensInstance(Trim(lines[0])) && SetsState(Trim(lines[1]), r) && SetsInterface(Trim(lines[2]), i)
    ensures Run(Parser(false, false, 0, d), lines) ==
      Run(Opened.(data := d.(state := Some(Upper(r)), iface := Some(i))), lines[3..])
  {
    Whole(lines);
    OpenLink(lines, 0, d);
    StateLink(lines, 1, d, r);
    InterfaceLink(lines, 2, d.(state := Some(Upper(r))), i);
  }

  /** The router id and priority lines and the line that opens the VIP block. */
  lemma HeaderRunB(lines: seq<string>, v: string, p: string, d: Config)
    requires 6 <= |lines|
    requires SetsVrid(Trim(lines[3]), v) && SetsPriority(Trim(lines[4]), p) && OpensVipBlock(Trim(lines[5]))
    ensures Run(Opened.(data := d), lines[3..]) ==
      Run(Parser(true, true, 2, d.(vrid := Some(v), priority := Some(p))), lines[6..])
  {
    VridLink(lines, 3, d, v);
    PriorityLink(lines, 4, d.(vrid := Some(v)), p);
    VipOpenLink(lines, 5, d.(vrid := Some(v), priority := Some(p)));
  }

  /** The first line of a VIP block appends its entry. */
  lemma VipBlockFirst(block: seq<string>, vs: seq<string>, d: Config)
    requires vs != [] && VipBlock(block, vs)
    ensures VipBlock(block[1..], vs[1..])
    ensures Run(Parser(true, true, 2, d), block) ==
      Run(Parser(true, true, 2, d.(vips := d.vips + [vs[0]])), block[1..])
  {
    EntryFacts(vs[0]);
    VipStep(d, vs[0]);
    Whole(block);
    AdvanceOk(Parser(true, true, 2, d), block, 0, Parser(true, true, 2, d.(vips := d.vips + [vs[0]])));
  }

  /** An empty VIP block changes nothing. */
  lemma VipBlockEmpty(block: seq<string>, d: Config)
    requires VipBlock(block, [])
    ensures Run(Parser(true, true, 2, d), block) == Ok(Parser(true, true, 2, d.(vips := d.vips + [])))
  {
    assert d.vips + [] == d.vips;
  }

  lemma AppendFirst(d: Config, vs: seq<string>)
    requires vs != []
    ensures d.(vips := d.vips + [vs[0]]).(vips := d.vips + [vs[0]] + vs[1..]) == d.(vips := d.vips + vs)
  {
    assert d.vips + [vs[0]] + vs[1..] == d.vips + vs;
  }

  /** A VIP block whose lines after the first append their entries appends all of them. */
  lemma VipBlockCons(block: seq<string>, vs: seq<string>, d: Config)
    requires vs != [] && VipBlock(block, vs)
    requires var e := d.(vips := d.vips + [vs[0]]);
      Run(Parser(true, true, 2, e), block[1..]) == Ok(Parser(true, true, 2, e.(vips := e.vips + vs[1..])))
    ensures Run(Parser(true, true, 2, d), block) == Ok(Parser(true, true, 2, d.(vips := d.vips + vs)))
  {
    AppendFirst(d, vs);
    VipBlockFirst(block, vs, d);
  }

  /** Inside the VIP block, every entry line is appended to the VIP list, in file order. */
  lemma {:induction false} VipBlockRun(block: seq<string>, vs: seq<string>, d: Config)
    requires VipBlock(block, vs)
    ensures Run(Parser(true, true, 2, d), block) == Ok(Parser(true, true, 2, d.(vips := d.vips + vs)))
    decreases |vs|
  {
    if vs == [] {
      VipBlockEmpty(block, d);
    } else {
      VipBlockFirst(block, vs, d);
      VipBlockRun(block[1..], vs[1..], d.(vips := d.vips + [vs[0]]));
      VipBlockCons(block, vs, d);
    }
  }

  /** The two closing braces end the VIP block and then the instance, and change nothing in the record. */
  lemma ClosingRun(rest: seq<string>, d: Config)
    requires |rest| == 2 && ClosesBlock(Trim(rest[0])) && ClosesBlock(Trim(rest[1]))
    ensures Run(Parser(true, true, 2, d), rest) == Ok(Parser(false, false, 0, d))
  {
    Whole(rest);
    VipCloseLink(rest, 0, d);
    InstanceCloseLink(rest, 1, d);
  }

  /** The VIP entries and then the two closing braces, from inside the VIP block. */
  lemma BlockThenClosing(block: seq<string>, rest: seq<string>, vips: seq<string>, d: Config)
    requires VipBlock(block, vips)
    requires |rest| == 2 && ClosesBlock(Trim(rest[0])) && ClosesBlock(Trim(rest[1]))
    ensures Run(Parser(true, true, 2, d), block + rest) == Ok(Parser(false, false, 0, d.(vips := d.vips + vips)))
  {
    VipBlockRun(block, vips, d);
    RunAppend(Parser(true, true, 2, d), block, rest);
    ClosingRun(rest, d.(vips := d.vips + vips));
  }

  lemma BodySplit(lines: seq<string>, n: nat)
    requires |lines| == n + 8
    ensures lines[6..] == lines[6..n + 6] + lines[n + 6..]
    ensures |lines[n + 6..]| == 2 && lines[n + 6..][0] == lines[n + 6] && lines[n + 6..][1] == lines[n + 7]
  {
  }

  /** The VIP entries and the two closing braces, from inside the VIP block. */
  lemma BodyRun(lines: seq<string>, vips: seq<string>, d: Config)
    requires |lines| == |vips| + 8 && VipBlock(lines[6..|vips| + 6], vips)
    requires ClosesBlock(Trim(lines[|vips| + 6])) && ClosesBlock(Trim(lines[|vips| + 7]))
    ensures Run(Parser(true, true, 2, d), lines[6..]) == Ok(Parser(false, false, 0, d.(vips := d.vips + vips)))
  {
    BodySplit(lines, |vips|);
    BlockThenClosing(lines[6..|vips| + 6], lines[|vips| + 6..], vips, d);
  }

  lemma InstanceRecord(r: string, i: string, v: string, p: string, vips: seq<string>)
    ensures Empty.(state := Some(Upper(r)), iface := Some(i)).(vrid := Some(v), priority := Some(p)) ==
      Config(Some(Upper(r)), Some(i), Some(v), Some(p), [])
    ensures Config(Some(Upper(r)), Some(i), Some(v), Some(p), []).(vips := [] + vips) ==
      Config(Some(Upper(r)), Some(i), Some(v), Some(p), vips)
  {
    assert [] + vips == vips;
  }

  /** The whole instance from the initial state, from the facts about each line. */
  lemma InstanceRun(lines: seq<string>, r: string, i: string, v: string, p: string, vips: seq<string>)
    requires HeaderFacts(lines, r, i, v, p)
    requires |lines| == |vips| + 8 && VipBlock(lines[6..|vips| + 6], vips)
    requires ClosesBlock(Trim(lines[|vips| + 6])) && ClosesBlock(Trim(lines[|vips| + 7]))
    ensures Run(Initial, lines) == Ok(Parser(false, false, 0, Config(Some(Upper(r)), Some(i), Some(v), Some(p), vips)))
  {
    InstanceRecord(r, i, v, p, vips);
    HeaderRunA(lines, r, i, Empty);
    HeaderRunB(lines, v, p, Empty.(state := Some(Upper(r)), iface := Some(i)));
    BodyRun(lines, vips, Config(Some(Upper(r)), Some(i), Some(v), Some(p), []));
  }

  /** The whole instance from the initial state: every field is read and the parser ends outside every block. */
  lemma WellFormedRun(lines: seq<string>, n: string, r: string, i: string, v: string, p: string, vips: seq<string>)
    requires Word(n) && Word(r) && Word(i) && Word(v) && Word(p)
    requires InstanceLines(lines, n, r, i, v, p, vips)
    ensures Run(Initial, lines) == Ok(Parser(false, false, 0, Config(Some(Upper(r)), Some(i), Some(v), Some(p), vips)))
  {
    HeaderText(lines, n, r, i, v, p, vips);
    InstanceRun(lines, r, i, v, p, vips);
  }

  /**
   * Every field of a well-formed instance is read: the role upper-cased,
   * the interface, router id and priority verbatim, and the VIP entries in
   * file order.
   */
  lemma WellFormedParse(lines: seq<string>, n: string, r: string, i: string, v: string, p: string, vips: seq<string>)
    requires Word(n) && Word(r) && Word(i) && Word(v) && Word(p)
    requires InstanceLines(lines, n, r, i, v, p, vips)
    ensures Parse(Lines(lines)) == Parsed(Config(Some(Upper(r)), Some(i), Some(v), Some(p), vips))
  {
    WellFormedRun(lines, n, r, i, v, p, vips);
  }

  // ---- a second instance ----

  /** The stripped lines of an instance that sets only the role. */
  predicate RoleOnlyLines(lines: seq<string>, n: string, r: string) {
    |lines| == 3 && Trim(lines[0]) == OpenText(n) && Trim(lines[1]) == KeywordText("state", r) && Trim(lines[2]) == "}"
  }

  lemma RoleOnlyChain(lines: seq<string>, d: Config, r: string)
    requires |lines| == 3
    requires OpensInstance(Trim(lines[0])) && SetsState(Trim(lines[1]), r) && ClosesBlock(Trim(lines[2]))
    ensures Run(Parser(false, false, 0, d), lines) == Ok(Parser(false, false, 0, d.(state := Some(Upper(r)))))
  {
    Whole(lines);
    OpenLink(lines, 0, d);
    StateLink(lines, 1, d, r);
    InstanceCloseLink(lines, 2, d.(state := Some(Upper(r))));
  }

  lemma RoleOnlyRun(lines: seq<string>, d: Config, n: string, r: string)
    requires Word(n) && Word(r) && RoleOnlyLines(lines, n, r)
    ensures Run(Parser(false, false, 0, d), lines) == Ok(Parser(false, false, 0, d.(state := Some(Upper(r)))))
  {
    OpenTextFacts(n);
    StateTextFacts(r);
    CloseTextFacts();
    RoleOnlyChain(lines, d, r);
  }

  /**
   * A second instance after the first has closed is parsed too: its role
   * replaces the first one's, and every field it does not set stays.
   */
  lemma LaterInstanceOverrides(first: seq<string>, second: seq<string>, n: string,
                               r: string, i: string, v: string, p: string, vips: seq<string>, n2: string, r2: string)
    requires Word(n) && Word(r) && Word(i) && Word(v) && Word(p) && Word(n2) && Word(r2)
    requires InstanceLines(first, n, r, i, v, p, vips) && RoleOnlyLines(second, n2, r2)
    ensures Parse(Lines(first + second)) == Parsed(Config(Some(Upper(r2)), Some(i), Some(v), Some(p), vips))
  {
    var full := Config(Some(Upper(r)), Some(i), Some(v), Some(p), vips);
    WellFormedRun(first, n, r, i, v, p, vips);
    RunAppend(Initial, first, second);
    RoleOnlyRun(second, full, n2, r2);
  }

  // ---- a keyword without its value ----

  /** A router-id or priority line, in whatever case, is taken by neither earlier test nor by the block keywords. */
  lemma BareKeywordText(w: string)
    requires IsVridLine(w) || IsPriorityLine(w)
    ensures !StartsWith(w, "vrrp_instance") && !StartsWith(w, "virtual_ipaddress")
    ensures !IsStateLine(w) && !IsInterfaceLine(w)
  {
    LowerAt(w);
    var l := Lower(w);
    NotPrefix(l, "state ", 0);
    NotPrefix(l, "interface ", 0);
    if IsVridLine(w) {
      assert l[1] == 'i' && l[8] == 'r';
      NotPrefix(w, "vrrp_instance", 1);
      NotPrefix(w, "virtual_ipaddress", 8);
    } else {
      assert l[0] == 'p';
      NotPrefix(w, "vrrp_instance", 0);
      NotPrefix(w, "virtual_ipaddress", 0);
    }
  }

  /** A router-id or priority line with no second token, in the keyword zone, is an IndexError. */
  lemma BareKeywordStep(q: Parser, w: string)
    requires q.insideInstance && !q.insideVipBlock && q.blockLevel + BraceDelta(w) > 0
    requires IsVridLine(w) || IsPriorityLine(w)
    requires !StartsWith(w, "vrrp_instance") && !StartsWith(w, "virtual_ipaddress")
    requires !IsStateLine(w) && !IsInterfaceLine(w)
    requires SecondToken(w) == None
    ensures Step(q, w) == Err(IndexErrorMessage)
  {
    StepKeywordZone(q, w);
  }

  /**
   * A file whose first line opens an instance and whose next line is a
   * `virtual_router_id` or `priority` line without a value fails with the
   * IndexError, whatever follows.
   */
  lemma BareKeywordFails(lines: seq<string>)
    requires 2 <= |lines|
    requires StartsWith(Trim(lines[0]), "vrrp_instance")
    requires BraceDelta(Trim(lines[0])) + BraceDelta(Trim(lines[1])) > 0
    requires IsVridLine(Trim(lines[1])) || IsPriorityLine(Trim(lines[1]))
    requires |Tokens(Trim(lines[1]))| < 2
    ensures Parse(Lines(lines)) == Failed(IndexErrorMessage)
  {
    var q := Parser(true, false, BraceDelta(Trim(lines[0])), Empty);
    BareKeywordText(Trim(lines[1]));
    StepVrrp(Initial, Trim(lines[0]));
    Whole(lines);
    AdvanceOk(Initial, lines, 0, q);
    BareKeywordStep(q, Trim(lines[1]));
    AdvanceErr(q, lines, 1, IndexErrorMessage);
  }
}
