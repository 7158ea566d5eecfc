/**
 * The line-oriented parser for `keepalived.conf`: a state machine made of
 * two flags (inside a `vrrp_instance`, inside its `virtual_ipaddress`
 * block), a brace counter, and the record being filled in.
 *
 * `Step` is the effect of one line; `Run` folds it over the file and is the
 * specification of the imperative `ParseKeepalivedConfig`.
 */
module KeepalivedConfig {
  import opened Wrappers
  import opened TextOps

  /** The fields read from the file; `None` is Python's `None`. */
  datatype Config = Config(
    state: Option<string>,
    iface: Option<string>,
    vrid: Option<string>,
    priority: Option<string>,
    vips: seq<string>)

  /** What the file read produced: its lines, or the I/O error's message. */
  datatype ConfigFile = Lines(lines: seq<string>) | Unreadable(message: string)

  /** The parse result: the record, or the `{"error": ...}` dictionary. */
  datatype ParseOutcome = Parsed(config: Config) | Failed(message: string)

  /** The loop's state between two lines. */
  datatype Parser = Parser(
    insideInstance: bool,
    insideVipBlock: bool,
    blockLevel: int,
    data: Config)

  /** The message of the IndexError that `split()[1]` raises on a one-token line. */
  const IndexErrorMessage: string := "list index out of range"

  const Empty: Config := Config(None, None, None, None, [])

  const Initial: Parser := Parser(false, false, 0, Empty)

  /** The change in brace depth a stripped line brings. */
  function BraceDelta(s: string): int {
    Count(s, '{') - Count(s, '}')
  }

  /** The four keyword tests, on the lower-cased stripped line. */
  predicate IsStateLine(s: string) { StartsWith(Lower(s), "state ") }
  predicate IsInterfaceLine(s: string) { StartsWith(Lower(s), "interface ") }
  predicate IsVridLine(s: string) { StartsWith(Lower(s), "virtual_router_id") }
  predicate IsPriorityLine(s: string) { StartsWith(Lower(s), "priority") }

  /** The keyword branches: the record field a keyword line sets, from its second token. */
  function KeywordLine(q: Parser, s: string): (r: Result<Parser, string>)
    ensures r.Err? ==> r.error == IndexErrorMessage
  {
    if IsStateLine(s) then
      match SecondToken(s)
      case None => Err(IndexErrorMessage)
      case Some(t) => Ok(q.(data := q.data.(state := Some(Upper(t)))))
    else if IsInterfaceLine(s) then
      match SecondToken(s)
      case None => Err(IndexErrorMessage)
      case Some(t) => Ok(q.(data := q.data.(iface := Some(t))))
    else if IsVridLine(s) then
      match SecondToken(s)
      case None => Err(IndexErrorMessage)
      case Some(t) => Ok(q.(data := q.data.(vrid := Some(t))))
    else if IsPriorityLine(s) then
      match SecondToken(s)
      case None => Err(IndexErrorMessage)
      case Some(t) => Ok(q.(data := q.data.(priority := Some(t))))
    else
      Ok(q)
  }

  /**
   * A line inside the `virtual_ipaddress` block: a line starting with `}`
   * closes the block, and any other non-empty line not starting with `#`,
   * keyword lines included, is appended to the VIP list. Nothing else in
   * the state changes.
   */
  function VipLine(q: Parser, s: string): (r: Parser)
    ensures r.insideInstance == q.insideInstance && r.blockLevel == q.blockLevel
    ensures r.insideVipBlock == (q.insideVipBlock && !StartsWith(s, "}"))
    ensures r.data == q.data.(vips := if !StartsWith(s, "}") && s != [] && !StartsWith(s, "#") then q.data.vips + [s] else q.data.vips)
  {
    if StartsWith(s, "}") then q.(insideVipBlock := false)
    else if s != [] && !StartsWith(s, "#") then q.(data := q.data.(vips := q.data.vips + [s]))
    else q
  }

  /** A stripped line inside an instance that is not itself a `vrrp_instance` line. */
  function InstanceLine(p: Parser, s: string): (r: Result<Parser, string>)
    ensures r.Err? ==> r.error == IndexErrorMessage && !p.insideVipBlock
  {
    var level := p.blockLevel + BraceDelta(s);
    if level <= 0 then
      Ok(p.(insideInstance := false, insideVipBlock := false, blockLevel := level))
    else
      var q := p.(blockLevel := level);
      if StartsWith(s, "virtual_ipaddress") then Ok(q.(insideVipBlock := true))
      else if q.insideVipBlock then Ok(VipLine(q, s))
      else KeywordLine(q, s)
  }

  /**
   * One stripped line of the file, applied to the parser state. The keyword
   * branches read `split()[1]`; where the line has no second token this is
   * Python's IndexError, which ends the whole parse.
   */
  function Step(p: Parser, s: string): (r: Result<Parser, string>)
    ensures r.Err? ==>
      r.error == IndexErrorMessage && !StartsWith(s, "vrrp_instance") &&
      p.insideInstance && !p.insideVipBlock
  {
    if StartsWith(s, "vrrp_instance") then
      Ok(p.(insideInstance := true, blockLevel := BraceDelta(s)))
    else if !p.insideInstance then
      Ok(p)
    else
      InstanceLine(p, s)
  }

  /** The lines `lines`, each stripped, applied in order from state `p`; the first error ends the run. */
  function Run(p: Parser, lines: seq<string>): (r: Result<Parser, string>)
    ensures r.Err? ==> r.error == IndexErrorMessage
    decreases |lines|
  {
    if lines == [] then Ok(p)
    else
      match Step(p, Trim(lines[0]))
      case Err(m) => Err(m)
      case Ok(q) => Run(q, lines[1..])
  }

  // ---- one stripped line at a time ----

  /** A `vrrp_instance` line (re-)enters an instance and resets the depth to its own brace balance, from any state. */
  lemma StepVrrp(p: Parser, s: string)
    requires StartsWith(s, "vrrp_instance")
    ensures Step(p, s) == Ok(p.(insideInstance := true, blockLevel := BraceDelta(s)))
  {}

  /** Outside an instance, every other line changes nothing. */
  lemma StepOutside(p: Parser, s: string)
    requires !StartsWith(s, "vrrp_instance") && !p.insideInstance
    ensures Step(p, s) == Ok(p)
  {}

  /** When the depth drops to zero or below, both flags clear and the record is untouched. */
  lemma StepClose(p: Parser, s: string)
    requires !StartsWith(s, "vrrp_instance") && p.insideInstance
    requires p.blockLevel + BraceDelta(s) <= 0
    ensures Step(p, s) == Ok(Parser(false, false, p.blockLevel + BraceDelta(s), p.data))
  {}

  /** Inside an instance, a `virtual_ipaddress` line opens the VIP block. */
  lemma StepVipOpen(p: Parser, s: string)
    requires !StartsWith(s, "vrrp_instance") && p.insideInstance
    requires p.blockLevel + BraceDelta(s) > 0
    requires StartsWith(s, "virtual_ipaddress")
    ensures Step(p, s) == Ok(Parser(true, true, p.blockLevel + BraceDelta(s), p.data))
  {}

  /** Inside the VIP block, a line is handled by `VipLine` and never as a keyword. */
  lemma StepInVipBlock(p: Parser, s: string)
    requires !StartsWith(s, "vrrp_instance") && p.insideInstance
    requires p.blockLevel + BraceDelta(s) > 0
    requires !StartsWith(s, "virtual_ipaddress") && p.insideVipBlock
    ensures Step(p, s) == Ok(VipLine(p.(blockLevel := p.blockLevel + BraceDelta(s)), s))
  {}

  /** Inside an instance but outside the VIP block, a line is handled by `KeywordLine`. */
  lemma StepKeywordZone(p: Parser, s: string)
    requires !StartsWith(s, "vrrp_instance") && p.insideInstance
    requires p.blockLevel + BraceDelta(s) > 0
    requires !StartsWith(s, "virtual_ipaddress") && !p.insideVipBlock
    ensures Step(p, s) == KeywordLine(p.(blockLevel := p.blockLevel + BraceDelta(s)), s)
  {}

  // ---- the loop of ParseKeepalivedConfig, one branch at a time ----

  lemma AdvanceOk(p: Parser, lines: seq<string>, i: int, q: Parser)
    requires 0 <= i < |lines| && Step(p, Trim(lines[i])) == Ok(q)
    ensures Run(p, lines[i..]) == Run(q, lines[i + 1..])
  {
    assert lines[i..][0] == lines[i];
    assert lines[i..][1..] == lines[i + 1..];
  }

  lemma AdvanceErr(p: Parser, lines: seq<string>, i: int, m: string)
    requires 0 <= i < |lines| && Step(p, Trim(lines[i])) == Err(m)
    ensures Run(p, lines[i..]) == Err(m)
  {
    assert lines[i..][0] == lines[i];
  }

  lemma LoopVrrp(p: Parser, lines: seq<string>, i: int)
    requires 0 <= i < |lines| && StartsWith(Trim(lines[i]), "vrrp_instance")
    ensures Run(p, lines[i..]) == Run(p.(insideInstance := true, blockLevel := BraceDelta(Trim(lines[i]))), lines[i + 1..])
  {
    StepVrrp(p, Trim(lines[i]));
    AdvanceOk(p, lines, i, p.(insideInstance := true, blockLevel := BraceDelta(Trim(lines[i]))));
  }

  lemma LoopOutside(p: Parser, lines: seq<string>, i: int)
    requires 0 <= i < |lines| && !StartsWith(Trim(lines[i]), "vrrp_instance") && !p.insideInstance
    ensures Run(p, lines[i..]) == Run(p, lines[i + 1..])
  {
    StepOutside(p, Trim(lines[i]));
    AdvanceOk(p, lines, i, p);
  }

  lemma LoopClose(p: Parser, lines: seq<string>, i: int, level: int)
    requires 0 <= i < |lines| && !StartsWith(Trim(lines[i]), "vrrp_instance") && p.insideInstance
    requires level == p.blockLevel + BraceDelta(Trim(lines[i])) && level <= 0
    ensures Run(p, lines[i..]) == Run(Parser(false, false, level, p.data), lines[i + 1..])
  {
    StepClose(p, Trim(lines[i]));
    AdvanceOk(p, lines, i, Parser(false, false, level, p.data));
  }

  lemma LoopVipOpen(p: Parser, lines: seq<string>, i: int, level: int)
    requires 0 <= i < |lines| && !StartsWith(Trim(lines[i]), "vrrp_instance") && p.insideInstance
    requires level == p.blockLevel + BraceDelta(Trim(lines[i])) && level > 0
    requires StartsWith(Trim(lines[i]), "virtual_ipaddress")
    ensures Run(p, lines[i..]) == Run(Parser(true, true, level, p.data), lines[i + 1..])
  {
    StepVipOpen(p, Trim(lines[i]));
    AdvanceOk(p, lines, i, Parser(true, true, level, p.data));
  }

  lemma LoopInVipBlock(p: Parser, lines: seq<string>, i: int, level: int)
    requires 0 <= i < |lines| && !StartsWith(Trim(lines[i]), "vrrp_instance") && p.insideInstance
    requires level == p.blockLevel + BraceDelta(Trim(lines[i])) && level > 0
    requires !StartsWith(Trim(lines[i]), "virtual_ipaddress") && p.insideVipBlock
    ensures Run(p, lines[i..]) == Run(VipLine(p.(blockLevel := level), Trim(lines[i])), lines[i + 1..])
  {
    StepInVipBlock(p, Trim(lines[i]));
    AdvanceOk(p, lines, i, VipLine(p.(blockLevel := level), Trim(lines[i])));
  }

  lemma LoopKeywordZone(p: Parser, lines: seq<string>, i: int, level: int)
    requires 0 <= i < |lines| && !StartsWith(Trim(lines[i]), "vrrp_instance") && p.insideInstance
    requires level == p.blockLevel + BraceDelta(Trim(lines[i])) && level > 0
    requires !StartsWith(Trim(lines[i]), "virtual_ipaddress") && !p.insideVipBlock
    ensures var r := KeywordLine(p.(blockLevel := level), Trim(lines[i]));
      (r.Ok? ==> Run(p, lines[i..]) == Run(r.value, lines[i + 1..])) &&
      (r.Err? ==> Run(p, lines[i..]) == Err(r.error))
  {
    StepKeywordZone(p, Trim(lines[i]));
    var r := KeywordLine(p.(blockLevel := level), Trim(lines[i]));
    if r.Ok? {
      AdvanceOk(p, lines, i, r.value);
    } else {
      AdvanceErr(p, lines, i, r.error);
    }
  }

  /** What parsing a file means: read it, run every line from the initial state. */
  function Parse(file: ConfigFile): (r: ParseOutcome)
    ensures file.Unreadable? ==> r == Failed(file.message)
    ensures file.Lines? ==> (r.Parsed? <==> Run(Initial, file.lines).Ok?)
    ensures file.Lines? && r.Failed? ==> r.message == IndexErrorMessage
    ensures r.Parsed? ==> file.Lines? && r.config == Run(Initial, file.lines).value.data
  {
    match file
    case Unreadable(m) => Failed(m)
    case Lines(ls) =>
      match Run(Initial, ls)
      case Ok(p) => Parsed(p.data)
      case Err(m) => Failed(m)
  }

  /**
   * `parse_keepalived_config`: the loop over the lines, updating the two
   * flags, the brace counter and the record as it goes.
   */
  method ParseKeepalivedConfig(file: ConfigFile) returns (r: ParseOutcome)
    ensures r == Parse(file)
  {
    if file.Unreadable? {
      return Failed(file.message);
    }
    var lines := file.lines;
    var data := Empty;
    var insideInstance := false;
    var insideVipBlock := false;
    var blockLevel := 0;
    assert lines[0..] == lines;
    for i := 0 to |lines|
      invariant Run(Initial, lines) == Run(Parser(insideInstance, insideVipBlock, blockLevel, data), lines[i..])
    {
      ghost var cur := Parser(insideInstance, insideVipBlock, blockLevel, data);
      var stripped := Trim(lines[i]);

      if StartsWith(stripped, "vrrp_instance") {
        insideInstance := true;
        blockLevel := 0;
        blockLevel := blockLevel + Count(stripped, '{') - Count(stripped, '}');
        assert blockLevel == BraceDelta(stripped);
        LoopVrrp(cur, lines, i);
        continue;
      }

      if !insideInstance {
        LoopOutside(cur, lines, i);
        continue;
      }

      blockLevel := blockLevel + Count(stripped, '{') - Count(stripped, '}');
      assert blockLevel == cur.blockLevel + BraceDelta(stripped);

      if blockLevel <= 0 {
        insideInstance := false;
        insideVipBlock := false;
        LoopClose(cur, lines, i, blockLevel);
        continue;
      }

      if StartsWith(stripped, "virtual_ipaddress") {
        insideVipBlock := true;
        LoopVipOpen(cur, lines, i, blockLevel);
        continue;
      }

      ghost var q := Parser(insideInstance, insideVipBlock, blockLevel, data);

      if insideVipBlock {
        LoopInVipBlock(cur, lines, i, blockLevel);
        if StartsWith(stripped, "}") {
          insideVipBlock := false;
          continue;
        }
        if stripped != [] && !StartsWith(stripped, "#") {
          data := data.(vips := data.vips + [stripped]);
        }
        continue;
      }

      LoopKeywordZone(cur, lines, i, blockLevel);
      var lowered := Lower(stripped);

      if StartsWith(lowered, "state ") {
        var tokens := Tokens(stripped);
        if |tokens| < 2 {
          return Failed(IndexErrorMessage);
        }
        data := data.(state := Some(Upper(tokens[1])));
        continue;
      }

      if StartsWith(lowered, "interface ") {
        var tokens := Tokens(stripped);
        if |tokens| < 2 {
          return Failed(IndexErrorMessage);
        }
        data := data.(iface := Some(tokens[1]));
        continue;
      }

      if StartsWith(lowered, "virtual_router_id") {
        var tokens := Tokens(stripped);
        if |tokens| < 2 {
          return Failed(IndexErrorMessage);
        }
        data := data.(vrid := Some(tokens[1]));
        continue;
      }

      if StartsWith(lowered, "priority") {
        var tokens := Tokens(stripped);
        if |tokens| < 2 {
          return Failed(IndexErrorMessage);
        }
        data := data.(priority := Some(tokens[1]));
        continue;
      }
      assert q == cur.(blockLevel := blockLevel);
      assert KeywordLine(q, stripped) == Ok(q);
    }
    return Parsed(data);
  }
}
