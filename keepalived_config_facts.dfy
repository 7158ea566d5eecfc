/**
 * What the `keepalived.conf` parser does, stated over `Step` (one stripped line) and
 * `Run` (a whole file).
 */
module KeepalivedConfigFacts {
  import opened Wrappers
  import opened TextOps
  import opened KeepalivedConfig

  // ---- keyword fields ----

  /**
   * A stripped line whose lower-cased form starts with a keyword followed by
   * a space (`state `, `interface `) always has a second token, so these two
   * branches never raise IndexError.
   */
  lemma SpacedKeywordHasValue(line: string, keyword: string)
    requires 2 <= |keyword| && keyword[|keyword| - 1] == ' ' && NoSpace(keyword[..|keyword| - 1])
    requires StartsWith(Lower(Trim(line)), keyword)
    ensures SecondToken(Trim(line)).Some?
  {
    var s := Trim(line);
    var n := |keyword| - 1;
    LowerAt(s);
    assert Lower(s)[n] == keyword[n] == ' ';
    LowerCharSpace(s[n]);
    forall i | 0 <= i < n
      ensures !IsSpace(s[..n][i])
    {
      assert Lower(s)[i] == keyword[..n][i];
      LowerCharSpace(s[i]);
    }
    KeywordLineHasSecondToken(s, n, |s| - 1);
  }

  /**
   * Inside an instance and outside its VIP block, the four keywords (tested
   * in this order, on the lower-cased line) store the line's second token:
   * `state` upper-cased, the other three verbatim. The earlier value of the
   * field plays no part, so a later line overwrites it. `state ` and
   * `interface ` lines always carry a value; a `virtual_router_id` or
   * `priority` line without one makes the whole parse fail. Any other line
   * changes nothing.
   */
  lemma KeywordFields(q: Parser, line: string)
    ensures var s := Trim(line); var r := KeywordLine(q, s);
      (IsStateLine(s) ==>
        SecondToken(s).Some? && r == Ok(q.(data := q.data.(state := Some(Upper(SecondToken(s).value)))))) &&
      (!IsStateLine(s) && IsInterfaceLine(s) ==>
        SecondToken(s).Some? && r == Ok(q.(data := q.data.(iface := SecondToken(s))))) &&
      (!IsStateLine(s) && !IsInterfaceLine(s) && IsVridLine(s) ==>
        r == if SecondToken(s).Some? then Ok(q.(data := q.data.(vrid := SecondToken(s)))) else Err(IndexErrorMessage)) &&
      (!IsStateLine(s) && !IsInterfaceLine(s) && !IsVridLine(s) && IsPriorityLine(s) ==>
        r == if SecondToken(s).Some? then Ok(q.(data := q.data.(priority := SecondToken(s)))) else Err(IndexErrorMessage)) &&
      (!IsStateLine(s) && !IsInterfaceLine(s) && !IsVridLine(s) && !IsPriorityLine(s) ==>
        r == Ok(q))
  {
    var s := Trim(line);
    if IsStateLine(s) {
      SpacedKeywordHasValue(line, "state ");
    } else if IsInterfaceLine(s) {
      SpacedKeywordHasValue(line, "interface ");
    }
  }

  /** The only way a line makes the parse fail: a `virtual_router_id` or `priority` line with nothing after the keyword. */
  lemma KeywordLineFailure(q: Parser, line: string)
    ensures var s := Trim(line);
      KeywordLine(q, s).Err? <==>
        !IsStateLine(s) && !IsInterfaceLine(s) && (IsVridLine(s) || IsPriorityLine(s)) && SecondToken(s).None?
  {
    KeywordFields(q, line);
  }

  /** A keyword line changes one field of the record and neither the flags, the depth nor the VIP list. */
  lemma KeywordLineFrame(q: Parser, s: string)
    requires KeywordLine(q, s).Ok?
    ensures var r := KeywordLine(q, s).value;
      r.insideInstance == q.insideInstance && r.insideVipBlock == q.insideVipBlock &&
      r.blockLevel == q.blockLevel && r.data.vips == q.data.vips
  {
    if IsStateLine(s) {
    } else if IsInterfaceLine(s) {
    } else if IsVridLine(s) {
    } else if IsPriorityLine(s) {
    }
  }

  // ---- the VIP block ----

  /** One stripped line either leaves the VIP list alone or appends its own text to it. */
  lemma StepVipsAppend(p: Parser, s: string)
    requires Step(p, s).Ok?
    ensures var q := Step(p, s).value;
      q.data.vips == p.data.vips || q.data.vips == p.data.vips + [s]
  {
    if !StartsWith(s, "vrrp_instance") && p.insideInstance {
      var level := p.blockLevel + BraceDelta(s);
      if level > 0 && !StartsWith(s, "virtual_ipaddress") && !p.insideVipBlock {
        KeywordLineFrame(p.(blockLevel := level), s);
      }
    }
  }

  /** A line that is appended is non-empty and is not a comment. */
  lemma StepVipIsEntry(p: Parser, s: string)
    requires Step(p, s).Ok? && Step(p, s).value.data.vips != p.data.vips
    ensures s != [] && !StartsWith(s, "#") && !StartsWith(s, "}")
    ensures p.insideVipBlock && p.insideInstance
  {
    if !StartsWith(s, "vrrp_instance") && p.insideInstance {
      var level := p.blockLevel + BraceDelta(s);
      if level > 0 && !StartsWith(s, "virtual_ipaddress") && !p.insideVipBlock {
        KeywordLineFrame(p.(blockLevel := level), s);
      }
    }
  }

  /** A run whose first line succeeds goes on from that line's state. */
  lemma RunFirst(p: Parser, lines: seq<string>)
    requires lines != [] && (Run(p, lines).Ok? || Step(p, Trim(lines[0])).Ok?)
    ensures Step(p, Trim(lines[0])).Ok? && Run(p, lines) == Run(Step(p, Trim(lines[0])).value, lines[1..])
  {
  }

  /** The first line of a successful run, applied to a run that continues with more lines. */
  lemma RunHeadAppend(p: Parser, a: seq<string>, b: seq<string>) returns (q: Parser)
    requires a != [] && Run(p, a).Ok?
    ensures Run(p, a) == Run(q, a[1..]) && Run(p, a + b) == Run(q, a[1..] + b)
  {
    RunFirst(p, a);
    q := Step(p, Trim(a[0])).value;
    ConsAppend(a, b);
    RunFirst(p, a + b);
  }

  /** Splitting the head off a concatenation whose first part is not empty. */
  lemma ConsAppend(a: seq<string>, b: seq<string>)
    requires a != []
    ensures a + b != [] && (a + b)[0] == a[0] && (a + b)[1..] == a[1..] + b
  {
  }

  /** A run over two line sequences is the run over the first, continued over the second. */
  lemma {:induction false} RunAppend(p: Parser, a: seq<string>, b: seq<string>)
    requires Run(p, a).Ok?
    ensures Run(p, a + b) == Run(Run(p, a).value, b)
    decreases |a|
  {
    if a == [] {
      assert a + b == b;
    } else {
      var q := RunHeadAppend(p, a, b);
      RunAppend(q, a[1..], b);
    }
  }

  /** Across a whole run the VIP list only grows at its end: what was there stays a prefix. */
  lemma {:induction false} RunVipsGrow(p: Parser, lines: seq<string>)
    requires Run(p, lines).Ok?
    ensures p.data.vips <= Run(p, lines).value.data.vips
    decreases |lines|
  {
    if lines != [] {
      var q := Step(p, Trim(lines[0])).value;
      StepVipsAppend(p, Trim(lines[0]));
      RunVipsGrow(q, lines[1..]);
    }
  }

  /** Every VIP a run adds is the stripped text of one of its lines, non-empty and not a comment. */
  lemma {:induction false} RunVipsFromLines(p: Parser, lines: seq<string>)
    requires Run(p, lines).Ok?
    ensures var vs := Run(p, lines).value.data.vips;
      forall k :: |p.data.vips| <= k < |vs| ==>
        vs[k] != [] && !StartsWith(vs[k], "#") && exists i :: 0 <= i < |lines| && vs[k] == Trim(lines[i])
    decreases |lines|
  {
    if lines != [] {
      var q := Step(p, Trim(lines[0])).value;
      StepVipsAppend(p, Trim(lines[0]));
      if q.data.vips != p.data.vips {
        StepVipIsEntry(p, Trim(lines[0]));
      }
      RunVipsFromLines(q, lines[1..]);
      RunVipsGrow(q, lines[1..]);
      var vs := Run(p, lines).value.data.vips;
      forall k | |p.data.vips| <= k < |vs|
        ensures vs[k] != [] && !StartsWith(vs[k], "#") && exists i :: 0 <= i < |lines| && vs[k] == Trim(lines[i])
      {
        if k < |q.data.vips| {
          assert vs[k] == q.data.vips[k] == Trim(lines[0]);
        } else {
          var i :| 0 <= i < |lines[1..]| && vs[k] == Trim(lines[1..][i]);
          assert vs[k] == Trim(lines[i + 1]);
        }
      }
    }
  }

  // ---- block structure ----

  /** The state-machine invariant: the VIP block is only ever open inside an instance. */
  ghost predicate Nested(p: Parser) {
    p.insideVipBlock ==> p.insideInstance
  }

  /** `Step` keeps `Nested`. */
  lemma StepKeepsNested(p: Parser, s: string)
    requires Nested(p) && Step(p, s).Ok?
    ensures Nested(Step(p, s).value)
  {
    if !StartsWith(s, "vrrp_instance") && p.insideInstance {
      var level := p.blockLevel + BraceDelta(s);
      if level > 0 && !StartsWith(s, "virtual_ipaddress") && !p.insideVipBlock {
        KeywordLineFrame(p.(blockLevel := level), s);
      }
    }
  }

  /** `Nested` holds after every line of every file. */
  lemma {:induction false} RunKeepsNested(p: Parser, lines: seq<string>)
    requires Nested(p) && Run(p, lines).Ok?
    ensures Nested(Run(p, lines).value)
    decreases |lines|
  {
    if lines != [] {
      StepKeepsNested(p, Trim(lines[0]));
      RunKeepsNested(Step(p, Trim(lines[0])).value, lines[1..]);
    }
  }

  /** A successful parse ends in a state where `Nested` holds. */
  lemma ParseEndsNested(lines: seq<string>)
    requires Run(Initial, lines).Ok?
    ensures Nested(Run(Initial, lines).value)
  {
    RunKeepsNested(Initial, lines);
  }

  /**
   * A `vrrp_instance` line after an instance has closed enters a new one:
   * the parser knows no "first instance wins", so its keyword lines
   * overwrite the earlier values and its VIPs are appended after the
   * earlier ones.
   */
  lemma ReenterAfterClose(p: Parser, close: string, open: string)
    requires !StartsWith(close, "vrrp_instance") && p.insideInstance
    requires p.blockLevel + BraceDelta(close) <= 0
    requires StartsWith(open, "vrrp_instance")
    ensures Step(p, close).Ok? && !Step(p, close).value.insideInstance
    ensures var q := Step(p, close).value;
      Step(q, open) == Ok(Parser(true, false, BraceDelta(open), p.data))
  {
    StepClose(p, close);
    StepVrrp(Parser(false, false, p.blockLevel + BraceDelta(close), p.data), open);
  }
}
