// A port's rsview properties: what one attempt to read them does, and what
// survives from one attempt to the next.
module Ports {
  import opened Common
  import opened AppErrors
  import opened Rsview
  import opened RsviewLaws

  const HOSTNAME_CELL: nat := 1
  const PORT_CELL: nat := 2
  const VLANS_CELL: nat := 5
  const LLDP_CELL: nat := 7

  datatype AllowRules = AllowRules(vlans: seq<string>, portNames: seq<string>, junNames: seq<string>)

  datatype Port = Port(mac: string, junName: string, junPortName: string, junVlan: nat, lldpHost: string)

  function FreshPort(mac: string): Port {
    Port(mac, "", "", 0, "")
  }

  // ---- The Go string helpers the rules use ----

  predicate OccursAt(s: string, sub: string, i: nat) {
    i + |sub| <= |s| && s[i..i + |sub|] == sub
  }

  predicate Contains(s: string, sub: string) {
    exists i | 0 <= i <= |s| :: OccursAt(s, sub, i)
  }

  predicate IsDigits(s: string) {
    forall i | 0 <= i < |s| :: '0' <= s[i] <= '9'
  }

  function DigitsValue(s: string): nat
    requires IsDigits(s)
  {
    if s == "" then 0 else 10 * DigitsValue(s[..|s| - 1]) + (s[|s| - 1] as int - '0' as int)
  }

  /** A decimal number of at most 16 bits. */
  function ParseUint16(s: string): (r: Option<nat>)
    ensures r.Some? ==> r.value < 0x1_0000
  {
    if s != "" && IsDigits(s) && DigitsValue(s) < 0x1_0000 then Some(DigitsValue(s)) else None
  }

  /** The part of a name before its first dot. */
  function BeforeDot(s: string): (r: string)
    ensures '.' !in r && r <= s && (r == s || s[|r|] == '.')
  {
    if s == "" || s[0] == '.' then "" else [s[0]] + BeforeDot(s[1..])
  }

  // ---- Which strings are numbers ----

  /** A number written out without leading zeros. */
  function Decimal(n: nat): string {
    if n < 10 then [('0' as int + n) as char] else Decimal(n / 10) + Decimal(n % 10)
  }

  function Zeros(z: nat): string {
    seq(z, _ => '0')
  }

  lemma {:induction false} DecimalValue(n: nat)
    ensures Decimal(n) != "" && IsDigits(Decimal(n)) && DigitsValue(Decimal(n)) == n
  {
    if n >= 10 {
      DecimalValue(n / 10);
      assert Decimal(n)[..|Decimal(n)| - 1] == Decimal(n / 10);
    }
  }

  lemma {:induction false} LeadingZeros(z: nat, s: string)
    requires IsDigits(s)
    ensures IsDigits(Zeros(z) + s) && DigitsValue(Zeros(z) + s) == DigitsValue(s)
    decreases |s|, z
  {
    if s != "" {
      LeadingZeros(z, s[..|s| - 1]);
      assert (Zeros(z) + s)[..z + |s| - 1] == Zeros(z) + s[..|s| - 1];
    } else if z > 0 {
      LeadingZeros(z - 1, s);
      assert (Zeros(z) + s)[..z - 1] == Zeros(z - 1) + s;
    }
  }

  lemma {:induction false} DigitsAreDecimal(s: string) returns (z: nat)
    requires s != "" && IsDigits(s)
    ensures s == Zeros(z) + Decimal(DigitsValue(s))
  {
    var init, v := s[..|s| - 1], DigitsValue(s);
    if init == "" {
      z := 0;
    } else {
      z := DigitsAreDecimal(init);
      assert v % 10 == s[|s| - 1] as int - '0' as int && v / 10 == DigitsValue(init);
      assert s == init + Decimal(v % 10);
      if v < 10 {
        assert init == Zeros(z + 1);
        z := z + 1;
      }
    }
  }

  /** The strings that parse as `v` are its decimal representation after any number of zeros. */
  lemma ParsesExactly(s: string, v: nat)
    ensures ParseUint16(s) == Some(v) <==> v < 0x1_0000 && exists z: nat :: s == Zeros(z) + Decimal(v)
  {
    if ParseUint16(s) == Some(v) {
      var z := DigitsAreDecimal(s);
    } else if z: nat :| v < 0x1_0000 && s == Zeros(z) + Decimal(v) {
      DecimalValue(v);
      LeadingZeros(z, Decimal(v));
    }
  }

  // ---- What one attempt does ----

  /** The first allowed vlan that the cell contains and that is not plain zero. */
  function FirstDecisive(vlans: seq<string>, cell: string): (i: nat)
    ensures i <= |vlans|
    ensures forall k :: 0 <= k < i && Contains(cell, vlans[k]) ==> ParseUint16(vlans[k]) == Some(0)
    ensures i < |vlans| ==> Contains(cell, vlans[i]) && ParseUint16(vlans[i]) != Some(0)
  {
    if vlans == [] || (Contains(cell, vlans[0]) && ParseUint16(vlans[0]) != Some(0)) then 0
    else FirstDecisive(vlans[1..], cell) + 1
  }

  /** A known vlan is kept. An unknown one becomes the first contained rule with a
      non-zero value, unless a contained rule before it cannot be parsed. */
  function VlanAfter(vlans: seq<string>, cell: string, known: nat): Result<nat, ErrorCode> {
    var i := FirstDecisive(vlans, cell);
    if known != 0 then Ok(known)
    else if i == |vlans| then Err(RsviewUnknownVlan)
    else match ParseUint16(vlans[i])
      case None => Err(InternalCommonError)
      case Some(v) => Ok(v)
  }

  /** A known name is kept. An unknown one becomes the whole cell once the cell
      contains an allowed name. */
  function NameAfter(allowed: seq<string>, cell: string, known: string): string {
    if known == "" && exists v <- allowed :: Contains(cell, v) then cell else known
  }

  function LldpAfter(cell: string, known: string): string {
    if cell == "" then known else BeforeDot(cell)
  }

  type Table = cells: seq<string> | |cells| == CELL_COUNT witness seq(CELL_COUNT, _ => "")

  /** What the rsview server answered, and what the final UPDATE came to. */
  datatype Reading = Reading(table: Result<Table, ErrorCode>, update: Reply)

  datatype Attempted = Attempted(port: Port, err: Option<ErrorCode>)

  function Attempt(rules: AllowRules, port: Port, reading: Reading): Attempted {
    match reading.table
    case Err(e) => Attempted(port, Some(e))
    case Ok(cells) =>
      match VlanAfter(rules.vlans, cells[VLANS_CELL], port.junVlan)
      case Err(e) => Attempted(port, Some(e))
      case Ok(vlan) =>
        var p1 := port.(junVlan := vlan);
        var p2 := p1.(junPortName := NameAfter(rules.portNames, cells[PORT_CELL], p1.junPortName));
        if p2.junPortName == "" then Attempted(p2, Some(RsviewUnknownPort))
        else
          var p3 := p2.(junName := NameAfter(rules.junNames, cells[HOSTNAME_CELL], p2.junName));
          if p3.junName == "" then Attempted(p3, Some(RsviewUnknownJun))
          else
            var p4 := p3.(lldpHost := LldpAfter(cells[LLDP_CELL], p3.lldpHost));
            if p4.lldpHost == "" then Attempted(p4, Some(RsviewUnknownLldp))
            else Attempted(p4, if reading.update.Acked() then None else Some(InternalSqlError))
  }

  // ---- The object, and the loops that carry an attempt out ----

  class BasePort {
    var mac: string
    var junName: string
    var junPortName: string
    var junVlan: nat
    var lldpHost: string

    ghost function Value(): Port
      reads this
    {
      Port(mac, junName, junPortName, junVlan, lldpHost)
    }

    constructor (mac: string)
      ensures Value() == FreshPort(mac)
    {
      this.mac := mac;
      junName, junPortName, junVlan, lldpHost := "", "", 0, "";
    }

    method ParseVlans(vlans: seq<string>, cell: string) returns (err: Option<ErrorCode>)
      modifies this`junVlan
      ensures match VlanAfter(vlans, cell, old(junVlan))
              case Ok(v) => err == None && junVlan == v
              case Err(e) => err == Some(e) && junVlan == old(junVlan)
    {
      ghost var first := FirstDecisive(vlans, cell);
      for i := 0 to |vlans|
        invariant old(junVlan) != 0 ==> junVlan == old(junVlan)
        invariant old(junVlan) == 0 && i <= first ==> junVlan == 0
        invariant old(junVlan) == 0 && first < i ==> ParseUint16(vlans[first]) == Some(junVlan)
      {
        if Contains(cell, vlans[i]) {
          if junVlan == 0 {
            var parsed := ParseUint16(vlans[i]);
            if parsed.Some? {
              junVlan := parsed.value;
              continue;
            }
            return Some(InternalCommonError);
          }
        }
      }
      return if junVlan == 0 then Some(RsviewUnknownVlan) else None;
    }

    method ParsePortName(allowed: seq<string>, cell: string)
      modifies this`junPortName
      ensures junPortName == NameAfter(allowed, cell, old(junPortName))
    {
      for i := 0 to |allowed|
        invariant junPortName == NameAfter(allowed[..i], cell, old(junPortName))
      {
        assert allowed[..i + 1] == allowed[..i] + [allowed[i]];
        if Contains(cell, allowed[i]) {
          if junPortName == "" {
            junPortName := cell;
            continue;
          }
        }
      }
      assert allowed[..|allowed|] == allowed;
    }

    method ParseJunName(allowed: seq<string>, cell: string)
      modifies this`junName
      ensures junName == NameAfter(allowed, cell, old(junName))
    {
      for i := 0 to |allowed|
        invariant junName == NameAfter(allowed[..i], cell, old(junName))
      {
        assert allowed[..i + 1] == allowed[..i] + [allowed[i]];
        if Contains(cell, allowed[i]) {
          if junName == "" {
            junName := cell;
            continue;
          }
        }
      }
      assert allowed[..|allowed|] == allowed;
    }

    method ParseRsviewProperties(rules: AllowRules, reading: Reading) returns (err: Option<ErrorCode>)
      modifies this
      ensures Attempted(Value(), err) == Attempt(rules, old(Value()), reading)
    {
      if reading.table.Err? {
        return Some(reading.table.error);
      }
      var cells: Table := reading.table.value;
      err := ParseVlans(rules.vlans, cells[VLANS_CELL]);
      if err.Some? {
        return;
      }
      ParsePortName(rules.portNames, cells[PORT_CELL]);
      if junPortName == "" {
        return Some(RsviewUnknownPort);
      }
      ParseJunName(rules.junNames, cells[HOSTNAME_CELL]);
      if junName == "" {
        return Some(RsviewUnknownJun);
      }
      if cells[LLDP_CELL] != "" {
        lldpHost := BeforeDot(cells[LLDP_CELL]);
      }
      if lldpHost == "" {
        return Some(RsviewUnknownLldp);
      }
      return if reading.update.Acked() then None else Some(InternalSqlError);
    }
  }

  // ---- Laws of one attempt ----

  /** An attempt succeeds exactly when the page was read, every property is known
      afterwards, and the update was acknowledged. */
  lemma AttemptSucceeds(rules: AllowRules, port: Port, reading: Reading)
    ensures Attempt(rules, port, reading).err == None <==>
            && reading.table.Ok?
            && reading.update.Acked()
            && (var cells := reading.table.value;
                && VlanAfter(rules.vlans, cells[VLANS_CELL], port.junVlan).Ok?
                && (port.junPortName != "" ||
                    (cells[PORT_CELL] != "" && exists v <- rules.portNames :: Contains(cells[PORT_CELL], v)))
                && (port.junName != "" ||
                    (cells[HOSTNAME_CELL] != "" && exists v <- rules.junNames :: Contains(cells[HOSTNAME_CELL], v)))
                && LldpAfter(cells[LLDP_CELL], port.lldpHost) != "")
  {
  }

  /** Rule `i` is the one that decides: it is contained, is not plain zero, and every contained
      rule before it is. */
  ghost predicate DecidesAt(vlans: seq<string>, cell: string, i: nat) {
    && i < |vlans| && Contains(cell, vlans[i]) && ParseUint16(vlans[i]) != Some(0)
    && forall k :: 0 <= k < i && Contains(cell, vlans[k]) ==> ParseUint16(vlans[k]) == Some(0)
  }

  /** The three outcomes on a port whose vlan is not known: a value, an unparsable rule in the way,
      or no rule at all. */
  lemma FreshVlanExactly(vlans: seq<string>, cell: string)
    ensures forall v :: VlanAfter(vlans, cell, 0) == Ok(v) <==>
              exists i: nat :: DecidesAt(vlans, cell, i) && ParseUint16(vlans[i]) == Some(v)
    ensures VlanAfter(vlans, cell, 0) == Err(InternalCommonError) <==>
              exists i: nat :: DecidesAt(vlans, cell, i) && ParseUint16(vlans[i]) == None
    ensures VlanAfter(vlans, cell, 0) == Err(RsviewUnknownVlan) <==> forall i: nat :: !DecidesAt(vlans, cell, i)
  {
    var first := FirstDecisive(vlans, cell);
    forall i: nat | DecidesAt(vlans, cell, i) ensures i == first {
      OnlyFirstDecides(vlans, cell, i);
    }
    if first < |vlans| {
      assert DecidesAt(vlans, cell, first);
    }
  }

  lemma OnlyFirstDecides(vlans: seq<string>, cell: string, i: nat)
    requires DecidesAt(vlans, cell, i)
    ensures i == FirstDecisive(vlans, cell)
  {
  }

  lemma VlanIsNonZero(vlans: seq<string>, cell: string, known: nat)
    ensures VlanAfter(vlans, cell, known).Ok? ==> VlanAfter(vlans, cell, known).value != 0
  {
  }

  /** What a successful attempt leaves behind. */
  ghost predicate FullyRead(port: Port) {
    port.junVlan != 0 && port.junPortName != "" && port.junName != "" && port.lldpHost != ""
  }

  lemma SuccessReadsEverything(rules: AllowRules, port: Port, reading: Reading)
    requires Attempt(rules, port, reading).err == None
    ensures FullyRead(Attempt(rules, port, reading).port)
    ensures reading.table.value[LLDP_CELL] != "" ==>
              Attempt(rules, port, reading).port.lldpHost == BeforeDot(reading.table.value[LLDP_CELL])
  {
    VlanIsNonZero(rules.vlans, reading.table.value[VLANS_CELL], port.junVlan);
  }

  /** On an accepted page no cell is empty, so a successful attempt on it leaves the LLDP name of
      that very page, whatever was known before. */
  lemma LldpNameIsOfThisPage(rules: AllowRules, port: Port, page: Page, update: Reply)
    requires ParsePage(page).Ok? && Attempt(rules, port, Reading(ParsePage(page), update)).err == None
    ensures |ParsePage(page).value| == CELL_COUNT
    ensures Attempt(rules, port, Reading(ParsePage(page), update)).port.lldpHost == BeforeDot(ParsePage(page).value[LLDP_CELL])
  {
    AcceptedPageHasNoEmptyCell(page);
    assert ParsePage(page).value[LLDP_CELL] in ParsePage(page).value;
  }

  /** An allowed name is known already, or the cell shows one. */
  ghost predicate NameIsKnown(allowed: seq<string>, cell: string, known: string) {
    known != "" || (cell != "" && exists v <- allowed :: Contains(cell, v))
  }

  /** Which error an attempt ends in: the page's, and then that of the first property that is missing. */
  lemma AttemptFailsWith(rules: AllowRules, port: Port, reading: Reading)
    ensures Attempt(rules, port, reading).err ==
            match reading.table
            case Err(e) => Some(e)
            case Ok(cells) =>
              if VlanAfter(rules.vlans, cells[VLANS_CELL], port.junVlan).Err? then
                Some(VlanAfter(rules.vlans, cells[VLANS_CELL], port.junVlan).error)
              else if !NameIsKnown(rules.portNames, cells[PORT_CELL], port.junPortName) then Some(RsviewUnknownPort)
              else if !NameIsKnown(rules.junNames, cells[HOSTNAME_CELL], port.junName) then Some(RsviewUnknownJun)
              else if BeforeDot(cells[LLDP_CELL]) == "" && (cells[LLDP_CELL] != "" || port.lldpHost == "") then Some(RsviewUnknownLldp)
              else if !reading.update.Acked() then Some(InternalSqlError)
              else None
  {
  }

  /** A successful attempt on a fresh port takes everything from its page: the port name and the jun
      name are the whole cells, the LLDP name is what its cell has before the dot. */
  lemma FreshPortIsThePage(rules: AllowRules, mac: string, reading: Reading)
    requires Attempt(rules, FreshPort(mac), reading).err == None
    ensures var cells, port := reading.table.value, Attempt(rules, FreshPort(mac), reading).port;
            && port.mac == mac
            && port.junPortName == cells[PORT_CELL] && port.junName == cells[HOSTNAME_CELL]
            && port.lldpHost == BeforeDot(cells[LLDP_CELL])
            && exists i: nat :: DecidesAt(rules.vlans, cells[VLANS_CELL], i) && ParseUint16(rules.vlans[i]) == Some(port.junVlan)
  {
    FreshVlanExactly(rules.vlans, reading.table.value[VLANS_CELL]);
  }

  // ---- Laws of repeated attempts ----

  /** The port after each of a series of attempts, starting with the port before them. */
  function Attempts(rules: AllowRules, port: Port, readings: seq<Reading>): (ports: seq<Port>)
    ensures |ports| == |readings| + 1
  {
    if readings == [] then [port]
    else
      var init := Attempts(rules, port, readings[..|readings| - 1]);
      init + [Attempt(rules, init[|init| - 1], readings[|readings| - 1]).port]
  }

  lemma {:induction false} AttemptsStep(rules: AllowRules, port: Port, readings: seq<Reading>, i: nat)
    requires i < |readings|
    ensures var ports := Attempts(rules, port, readings);
            ports[i + 1] == Attempt(rules, ports[i], readings[i]).port
  {
    if i < |readings| - 1 {
      AttemptsStep(rules, port, readings[..|readings| - 1], i);
    }
  }

  /** The MAC address is the same, and so are the vlan, port name and jun name once they are known. */
  predicate Keeps(before: Port, after: Port) {
    && after.mac == before.mac
    && (before.junVlan != 0 ==> after.junVlan == before.junVlan)
    && (before.junPortName != "" ==> after.junPortName == before.junPortName)
    && (before.junName != "" ==> after.junName == before.junName)
  }

  lemma AttemptKeeps(rules: AllowRules, port: Port, reading: Reading)
    ensures Keeps(port, Attempt(rules, port, reading).port)
  {
  }

  /** Over any series of retries the vlan, port name and jun name are each set at most once. */
  lemma {:induction false} SetAtMostOnce(rules: AllowRules, port: Port, readings: seq<Reading>, i: nat, k: nat)
    requires i <= k <= |readings|
    ensures Keeps(Attempts(rules, port, readings)[i], Attempts(rules, port, readings)[k])
  {
    if i < k {
      SetAtMostOnce(rules, port, readings, i, k - 1);
      AttemptsStep(rules, port, readings, k - 1);
      AttemptKeeps(rules, Attempts(rules, port, readings)[k - 1], readings[k - 1]);
    }
  }

  ghost predicate Decides(rules: AllowRules, reading: Reading) {
    reading.table.Ok? && VlanAfter(rules.vlans, reading.table.value[VLANS_CELL], 0).Ok?
  }

  /** On a fresh port the vlan is that of the first reading that decides one, whatever
      the later pages show. */
  lemma {:induction false} VlanIsFirstDecided(rules: AllowRules, mac: string, readings: seq<Reading>)
    ensures var vlan := Attempts(rules, FreshPort(mac), readings)[|readings|].junVlan;
            if exists i :: 0 <= i < |readings| && Decides(rules, readings[i]) then
              exists i :: 0 <= i < |readings| && Decides(rules, readings[i])
                && (forall k :: 0 <= k < i ==> !Decides(rules, readings[k]))
                && Ok(vlan) == VlanAfter(rules.vlans, readings[i].table.value[VLANS_CELL], 0)
            else vlan == 0
  {
    if readings != [] {
      var n := |readings| - 1;
      var init := readings[..n];
      VlanIsFirstDecided(rules, mac, init);
      var before := Attempts(rules, FreshPort(mac), init)[n];
      AttemptKeeps(rules, before, readings[n]);
      if i :| 0 <= i < n && Decides(rules, init[i]) {
        var first :| 0 <= first < n && Decides(rules, init[first])
          && (forall k :: 0 <= k < first ==> !Decides(rules, init[k]))
          && Ok(before.junVlan) == VlanAfter(rules.vlans, init[first].table.value[VLANS_CELL], 0);
        VlanIsNonZero(rules.vlans, init[first].table.value[VLANS_CELL], 0);
        assert Decides(rules, readings[first]);
        assert forall k :: 0 <= k < first ==> readings[k] == init[k];
      } else {
        assert forall k :: 0 <= k < n ==> readings[k] == init[k];
        if Decides(rules, readings[n]) {
          assert Ok(Attempts(rules, FreshPort(mac), readings)[|readings|].junVlan)
              == VlanAfter(rules.vlans, readings[n].table.value[VLANS_CELL], 0);
        }
      }
    }
  }
}
