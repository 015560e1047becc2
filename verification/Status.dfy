/** The status page, written in two passes: the first only adds up how long the page
    will be, the second writes it into an area of exactly that length. */
module Status {
  import opened Wrappers
  import Pool

  /** One upstream block of the configuration; blocks without servers of this driver
      are not listed. `cached` and `freed` are the uses counted on the items of the
      two queues. */
  datatype Upstream =
    | Unlisted
    | Listed(host: string, active: nat, maxCached: nat, overflow: Pool.Overflow,
             cached: seq<nat>, freed: seq<nat>, servers: nat, peers: nat)

  // --- numbers ---

  function Digits(n: nat): (s: string)
    ensures |s| > 0
  {
    (if n < 10 then [] else Digits(n / 10)) + ["0123456789"[n % 10]]
  }

  /** Numbers are printed as 32-bit values. */
  function Printed(whole: bool, n: nat): string {
    Digits(if whole then n else n % 0x1_0000_0000)
  }

  function Value(s: string): nat {
    if s == [] then 0
    else
      var d := s[|s| - 1];
      10 * Value(s[..|s| - 1]) + if '0' <= d <= '9' then d as nat - '0' as nat else 0
  }

  /** The digits say which number it is. */
  lemma {:induction false} DigitsRoundTrip(n: nat)
    ensures Value(Digits(n)) == n
  {
    var s := Digits(n);
    var d := "0123456789"[n % 10];
    assert d as nat == '0' as nat + n % 10;
    if n >= 10 {
      DigitsRoundTrip(n / 10);
      assert s[..|s| - 1] == Digits(n / 10);
    } else {
      assert s[..|s| - 1] == [];
    }
  }

  lemma {:induction false} MoreDigits(m: nat, n: nat)
    requires m <= n
    ensures |Digits(m)| <= |Digits(n)|
  {
    if m >= 10 {
      MoreDigits(m / 10, n / 10);
    }
  }

  function Power(k: nat): (p: nat)
    ensures p > 0
  {
    if k == 0 then 1 else 10 * Power(k - 1)
  }

  /** So many digits are needed for a number, and no fewer. */
  lemma {:induction false} DigitCount(n: nat, k: nat)
    requires k > 0
    ensures |Digits(n)| <= k <==> n < Power(k)
  {
    if n >= 10 {
      if k > 1 {
        DigitCount(n / 10, k - 1);
        assert Power(k) == 10 * Power(k - 1);
      }
    } else {
      assert Power(k) == 10 * Power(k - 1);
    }
    if k == 1 {
      assert Power(1) == 10 * Power(0);
    }
  }

  /** The numbers that keep their width when they are printed. */
  predicate Fits(n: nat) {
    n < 0x1_0000_0000 || (n < 100_0000_0000 && n % 0x1_0000_0000 >= 10_0000_0000)
  }

  lemma PrintedWidth(n: nat)
    ensures |Printed(false, n)| <= |Printed(true, n)|
    ensures |Printed(false, n)| == |Printed(true, n)| <==> Fits(n)
  {
    hide Digits, Power;
    var m := n % 0x1_0000_0000;
    MoreDigits(m, n);
    TenDigits();
    DigitCount(n, 9);
    DigitCount(n, 10);
    DigitCount(m, 9);
    DigitCount(m, 10);
  }

  lemma TenDigits()
    ensures Power(9) == 10_0000_0000 && Power(10) == 100_0000_0000
  {
    assert Power(2) == 100;
    assert Power(5) == 10_0000;
    assert Power(8) == 1_0000_0000;
  }

  /** Counts the digits of a number, as the source does. */
  method GetNumSize(number: nat) returns (n: nat)
    ensures n == |Digits(number)|
  {
    var i := number / 10;
    n := 1;
    while i > 0
      invariant |Digits(number)| == n + if i > 0 then |Digits(i)| else 0
    {
      i := i / 10;
      n := n + 1;
    }
  }

  // --- the page ---

  datatype Piece = Text(text: string) | Number(n: nat)

  function Shown(whole: bool, p: Piece): string {
    if p.Text? then p.text else Printed(whole, p.n)
  }

  function Render(whole: bool, ps: seq<Piece>): string {
    if ps == [] then []
    else Shown(whole, ps[0]) + Render(whole, ps[1..])
  }

  function Line(name: string, n: nat): seq<Piece> {
    [Text(name), Number(n), Text("\n")]
  }

  function Counts(uses: seq<nat>): seq<Piece> {
    if uses == [] then []
    else Counts(uses[..|uses| - 1]) + [Text(" "), Number(uses[|uses| - 1])]
  }

  function Uses(name: string, uses: seq<nat>): seq<Piece> {
    [Text(name)] + Counts(uses) + [Text("\n")]
  }

  function OverflowText(o: Pool.Overflow): string {
    match o
    case Ignore => "  overflow: ignore\n"
    case Reject => "  overflow: reject\n"
    case Unset => "  overflow: N/A\n"
  }

  /** The setting that a value of the configuration stands for. */
  function Configured(value: string): Option<Pool.Overflow> {
    if value == "reject" then Some(Pool.Reject)
    else if value == "ignore" then Some(Pool.Ignore)
    else None
  }

  /** The page shows the very value that was configured. */
  lemma OverflowShown(value: string)
    requires Configured(value).Some?
    ensures OverflowText(Configured(value).value) == "  overflow: " + value + "\n"
  {
  }

  function Head(u: Upstream): seq<Piece>
    requires u.Listed?
  {
    [Text("upstream "), Text(u.host), Text("\n")]
    + Line("  active connections: ", u.active) + Line("  connection pool capacity: ", u.maxCached)
  }

  function Queues(u: Upstream): seq<Piece>
    requires u.Listed?
  {
    [Text(OverflowText(u.overflow))]
    + Line("  cached connection queue: ", |u.cached|) + Line("  free'd connection queue: ", |u.freed|)
    + Uses("  cached connection successfully used count:", u.cached)
    + Uses("  free'd connection successfully used count:", u.freed)
  }

  function Tail(u: Upstream): seq<Piece>
    requires u.Listed?
  {
    Line("  servers: ", u.servers) + Line("  peers: ", u.peers)
  }

  function Block(u: Upstream): seq<Piece> {
    if u.Unlisted? then [] else Head(u) + (if u.maxCached > 0 then Queues(u) else []) + Tail(u)
  }

  function Blocks(us: seq<Upstream>): seq<Piece> {
    if us == [] then []
    else
      var before, u := us[..|us| - 1], us[|us| - 1];
      Blocks(before) + (if u.Listed? && Blocks(before) != [] then [Text("\n")] else []) + Block(u)
  }

  function Page(pid: Option<nat>, us: seq<Upstream>): seq<Piece> {
    (if pid.Some? then Title(pid.value) else []) + Blocks(us)
  }

  lemma {:induction false} RenderConcat(whole: bool, a: seq<Piece>, b: seq<Piece>)
    ensures Render(whole, a + b) == Render(whole, a) + Render(whole, b)
  {
    hide Shown;
    if a == [] {
      assert a + b == b;
    } else {
      RenderConcat(whole, a[1..], b);
      assert (a + b)[1..] == a[1..] + b;
    }
  }

  /** Printed in 32 bits a page is never longer, and as long exactly when every number
      on it keeps its width. */
  lemma {:induction false} PageWidth(ps: seq<Piece>)
    ensures |Render(false, ps)| <= |Render(true, ps)|
    ensures |Render(false, ps)| == |Render(true, ps)| <==>
            forall i :: 0 <= i < |ps| && ps[i].Number? ==> Fits(ps[i].n)
  {
    hide Printed, Fits;
    if ps != [] {
      PageWidth(ps[1..]);
      if ps[0].Number? {
        PrintedWidth(ps[0].n);
      }
      assert forall i :: 0 < i < |ps| ==> ps[i] == ps[1..][i - 1];
      assert (forall i :: 0 <= i < |ps[1..]| && ps[1..][i].Number? ==> Fits(ps[1..][i].n)) ==>
          forall i :: 0 < i < |ps| && ps[i].Number? ==> Fits(ps[1..][i - 1].n);
      assert (forall i :: 0 <= i < |ps| && ps[i].Number? ==> Fits(ps[i].n)) ==>
          forall i :: 0 <= i < |ps[1..]| && ps[1..][i].Number? ==> Fits(ps[i + 1].n);
    }
  }

  // --- first pass: the length ---

  lemma LineWidth(whole: bool, name: string, n: nat)
    ensures Render(whole, Line(name, n)) == name + Printed(whole, n) + "\n"
  {
    RenderSingle(whole, Text(name));
    RenderConcat(whole, [Text(name)], [Number(n)] + [Text("\n")]);
    RenderConcat(whole, [Number(n)], [Text("\n")]);
    RenderSingle(whole, Number(n));
    RenderSingle(whole, Text("\n"));
    assert Line(name, n) == [Text(name)] + ([Number(n)] + [Text("\n")]);
  }

  lemma RenderSingle(whole: bool, p: Piece)
    ensures Render(whole, [p]) == Shown(whole, p)
  {
    assert [p][1..] == [];
  }

  method MeasureLine(name: string, n: nat) returns (len: nat)
    ensures len == |Render(true, Line(name, n))|
  {
    hide Line, Render, Printed;
    LineWidth(true, name, n);
    var size := GetNumSize(n);
    PrintedWhole(n);
    len := |name| + |"\n"| + size;
  }

  lemma PrintedWhole(n: nat)
    ensures Printed(true, n) == Digits(n)
  {
  }

  method MeasureUses(name: string, uses: seq<nat>) returns (len: nat)
    ensures len == |Render(true, Uses(name, uses))|
  {
    hide Printed;
    len := |name| + |"\n"|;
    for k := 0 to |uses|
      invariant len == |name| + 1 + |Render(true, Counts(uses[..k]))|
    {
      CountsStep(true, uses, k);
      PrintedWhole(uses[k]);
      var size := GetNumSize(uses[k]);
      len := len + |" "| + size;
    }
    assert uses[..|uses|] == uses;
    UsesWidth(true, name, uses);
  }

  lemma CountsStep(whole: bool, uses: seq<nat>, k: nat)
    requires k < |uses|
    ensures Counts(uses[..k + 1]) == Counts(uses[..k]) + [Text(" "), Number(uses[k])]
    ensures Render(whole, Counts(uses[..k + 1])) == Render(whole, Counts(uses[..k])) + " " + Printed(whole, uses[k])
  {
    hide Render, Printed;
    assert uses[..k + 1][..k] == uses[..k];
    RenderConcat(whole, Counts(uses[..k]), [Text(" "), Number(uses[k])]);
    CountOf(whole, uses[k]);
  }

  lemma CountOf(whole: bool, n: nat)
    ensures Render(whole, [Text(" "), Number(n)]) == " " + Printed(whole, n)
  {
    assert [Text(" "), Number(n)] == [Text(" ")] + [Number(n)];
    RenderConcat(whole, [Text(" ")], [Number(n)]);
    RenderSingle(whole, Text(" "));
    RenderSingle(whole, Number(n));
  }

  lemma UsesWidth(whole: bool, name: string, uses: seq<nat>)
    ensures Render(whole, Uses(name, uses)) == name + Render(whole, Counts(uses)) + "\n"
  {
    RenderConcat(whole, [Text(name)] + Counts(uses), [Text("\n")]);
    RenderConcat(whole, [Text(name)], Counts(uses));
    RenderSingle(whole, Text(name));
    RenderSingle(whole, Text("\n"));
  }

  method MeasureBlock(u: Upstream) returns (len: nat)
    requires u.Listed?
    ensures len == |Render(true, Block(u))|
  {
    hide Render, Line, Uses, OverflowText;
    len := |"upstream \n"| + |u.host|;
    var active := MeasureLine("  active connections: ", u.active);
    var capacity := MeasureLine("  connection pool capacity: ", u.maxCached);
    len := len + active + capacity;
    HeadWidth(true, u);
    assert len == |Render(true, Head(u))|;
    if u.maxCached > 0 {
      var queues := MeasureQueues(u);
      len := len + queues;
    }
    var servers := MeasureLine("  servers: ", u.servers);
    var peers := MeasureLine("  peers: ", u.peers);
    len := len + servers + peers;
    BlockWidth(true, u);
  }

  method MeasureQueues(u: Upstream) returns (len: nat)
    requires u.Listed?
    ensures len == |Render(true, Queues(u))|
  {
    hide Render, Line, Uses;
    match u.overflow {
      case Ignore => len := |"  overflow: ignore\n"|;
      case Reject => len := |"  overflow: reject\n"|;
      case Unset => len := |"  overflow: N/A\n"|;
    }
    var cached := MeasureLine("  cached connection queue: ", |u.cached|);
    var freed := MeasureLine("  free'd connection queue: ", |u.freed|);
    var cachedUses := MeasureUses("  cached connection successfully used count:", u.cached);
    var freedUses := MeasureUses("  free'd connection successfully used count:", u.freed);
    len := len + cached + freed + cachedUses + freedUses;
    QueuesWidth(true, u);
  }

  lemma HeadWidth(whole: bool, u: Upstream)
    requires u.Listed?
    ensures Render(whole, Head(u))
         == "upstream " + u.host + "\n" + Render(whole, Line("  active connections: ", u.active))
          + Render(whole, Line("  connection pool capacity: ", u.maxCached))
  {
    hide Render, Line;
    var title := [Text("upstream "), Text(u.host), Text("\n")];
    var active := Line("  active connections: ", u.active);
    RenderConcat(whole, title + active, Line("  connection pool capacity: ", u.maxCached));
    RenderConcat(whole, title, active);
    assert title == [Text("upstream ")] + [Text(u.host)] + [Text("\n")];
    RenderConcat(whole, [Text("upstream ")] + [Text(u.host)], [Text("\n")]);
    RenderConcat(whole, [Text("upstream ")], [Text(u.host)]);
    RenderSingle(whole, Text("upstream "));
    RenderSingle(whole, Text(u.host));
    RenderSingle(whole, Text("\n"));
  }

  lemma QueuesWidth(whole: bool, u: Upstream)
    requires u.Listed?
    ensures Render(whole, Queues(u))
         == OverflowText(u.overflow)
          + Render(whole, Line("  cached connection queue: ", |u.cached|))
          + Render(whole, Line("  free'd connection queue: ", |u.freed|))
          + Render(whole, Uses("  cached connection successfully used count:", u.cached))
          + Render(whole, Uses("  free'd connection successfully used count:", u.freed))
  {
    hide Render, Line, Uses, OverflowText;
    var a, b := [Text(OverflowText(u.overflow))], Line("  cached connection queue: ", |u.cached|);
    var c := Line("  free'd connection queue: ", |u.freed|);
    var d := Uses("  cached connection successfully used count:", u.cached);
    RenderConcat(whole, a + b + c + d, Uses("  free'd connection successfully used count:", u.freed));
    RenderConcat(whole, a + b + c, d);
    RenderConcat(whole, a + b, c);
    RenderConcat(whole, a, b);
    RenderSingle(whole, Text(OverflowText(u.overflow)));
  }

  lemma BlockWidth(whole: bool, u: Upstream)
    requires u.Listed?
    ensures Render(whole, Block(u))
         == Render(whole, Head(u)) + (if u.maxCached > 0 then Render(whole, Queues(u)) else [])
          + Render(whole, Tail(u))
    ensures Render(whole, Tail(u))
         == Render(whole, Line("  servers: ", u.servers)) + Render(whole, Line("  peers: ", u.peers))
  {
    hide Head, Queues, Line;
    var middle := if u.maxCached > 0 then Queues(u) else [];
    RenderConcat(whole, Head(u) + middle, Tail(u));
    RenderConcat(whole, Head(u), middle);
    RenderConcat(whole, Line("  servers: ", u.servers), Line("  peers: ", u.peers));
  }

  /** The first pass gives the length of the page with every number in full. */
  method Measure(pid: Option<nat>, us: seq<Upstream>) returns (len: nat)
    ensures len == |Render(true, Page(pid, us))|
  {
    hide Render, Block, Printed;
    len := 0;
    if pid.Some? {
      PrintedWhole(pid.value);
      len := GetNumSize(pid.value);
      len := len + |"worker process: \n\n"|;
    }
    ghost var first := len;
    PageWidths(true, pid, us);
    var n := 0;
    for i := 0 to |us|
      invariant len == first + |Render(true, Blocks(us[..i]))|
      invariant n > 0 <==> Blocks(us[..i]) != []
    {
      BlocksStep(true, us, i);
      if us[i].Unlisted? {
        continue;
      }
      if n != 0 {
        len := len + |"\n"|;
      }
      n := n + 1;
      var block := MeasureBlock(us[i]);
      len := len + block;
    }
    assert us[..|us|] == us;
  }

  function Announced(whole: bool, pid: Option<nat>): string {
    if pid.Some? then "worker process: " + Printed(whole, pid.value) + "\n\n" else []
  }

  lemma PageWidths(whole: bool, pid: Option<nat>, us: seq<Upstream>)
    ensures Render(whole, Page(pid, us)) == Announced(whole, pid) + Render(whole, Blocks(us))
    ensures Blocks(us[..0]) == [] && Render(whole, []) == []
  {
    NoBlocks(us);
    hide Printed, Blocks, Render;
    if pid.Some? {
      RenderConcat(whole, Title(pid.value), Blocks(us));
      TitleWidth(whole, pid.value);
    } else {
      assert Page(pid, us) == Blocks(us);
    }
  }

  lemma NoBlocks(us: seq<Upstream>)
    ensures Blocks(us[..0]) == []
    ensures forall whole :: Render(whole, []) == []
  {
  }

  function Title(pid: nat): seq<Piece> {
    [Text("worker process: "), Number(pid), Text("\n\n")]
  }

  lemma TitleWidth(whole: bool, pid: nat)
    ensures Render(whole, Title(pid)) == Announced(whole, Some(pid))
  {
    hide Printed, Render;
    assert Title(pid) == [Text("worker process: ")] + [Number(pid)] + [Text("\n\n")];
    RenderConcat(whole, [Text("worker process: ")] + [Number(pid)], [Text("\n\n")]);
    RenderConcat(whole, [Text("worker process: ")], [Number(pid)]);
    RenderSingle(whole, Text("worker process: "));
    RenderSingle(whole, Number(pid));
    RenderSingle(whole, Text("\n\n"));
  }

  lemma BlocksStep(whole: bool, us: seq<Upstream>, i: nat)
    requires i < |us|
    ensures us[i].Unlisted? ==> Blocks(us[..i + 1]) == Blocks(us[..i])
    ensures us[i].Listed? ==>
              && Blocks(us[..i + 1]) != []
              && Render(whole, Blocks(us[..i + 1]))
                 == Render(whole, Blocks(us[..i])) + (if Blocks(us[..i]) != [] then "\n" else [])
                  + Render(whole, Block(us[i]))
  {
    assert us[..i + 1][..i] == us[..i];
    var gap := if us[i].Listed? && Blocks(us[..i]) != [] then [Text("\n")] else [];
    RenderConcat(whole, Blocks(us[..i]) + gap, Block(us[i]));
    RenderConcat(whole, Blocks(us[..i]), gap);
    RenderSingle(whole, Text("\n"));
  }

  // --- second pass: the text ---

  /** A memory area and how far it is filled. */
  class Area {
    const data: array<char>
    var last: nat

    ghost predicate Valid()
      reads `last
    {
      last <= data.Length
    }

    ghost function Contents(): string
      reads `last, data
      requires Valid()
    {
      data[..last]
    }

    /** What the rest of the page needs must still be free: nothing checks it here. */
    ghost predicate HasRoom(ps: seq<Piece>)
      reads `last
    {
      last + |Render(false, ps)| <= data.Length
    }

    constructor (size: nat)
      ensures Valid() && fresh(data) && data.Length == size && Contents() == []
    {
      data := new char[size];
      last := 0;
    }

    method Copy(text: string)
      requires Valid() && last + |text| <= data.Length
      modifies `last, data
      ensures Valid() && Contents() == old(Contents()) + text
    {
      for i := 0 to |text|
        invariant last == old(last) + i
        invariant Contents() == old(Contents()) + text[..i]
      {
        data[last] := text[i];
        last := last + 1;
        assert Contents() == old(Contents()) + text[..i] + [text[i]];
      }
      assert text[..|text|] == text;
    }

    /** Writes text with numbers in it; a number is cut to 32 bits. */
    method Print(ps: seq<Piece>)
      requires Valid() && HasRoom(ps)
      modifies `last, data
      ensures Valid() && Contents() == old(Contents()) + Render(false, ps)
    {
      hide Render, Digits;
      for i := 0 to |ps|
        invariant Valid() && HasRoom(ps[i..])
        invariant Contents() + Render(false, ps[i..]) == old(Contents()) + Render(false, ps)
      {
        RenderNext(ps, i);
        if ps[i].Text? {
          Copy(ps[i].text);
        } else {
          Copy(Digits(ps[i].n % 0x1_0000_0000));
        }
      }
      assert ps[|ps|..] == [];
      RenderNothing();
    }

    method PrintUses(name: string, uses: seq<nat>)
      requires Valid() && HasRoom(Uses(name, uses))
      modifies `last, data
      ensures Valid() && Contents() == old(Contents()) + Render(false, Uses(name, uses))
    {
      hide Counts, Printed, Render, Contents;
      UsesWidth(false, name, uses);
      Grown();
      Copy(name);
      CountsNothing(uses);
      for k := 0 to |uses|
        invariant Valid() && Contents() == old(Contents()) + name + Render(false, Counts(uses[..k]))
      {
        CountsStep(false, uses, k);
        CountsPrefix(uses, k + 1);
        CountOf(false, uses[k]);
        Grown();
        Print([Text(" "), Number(uses[k])]);
      }
      assert uses[..|uses|] == uses;
      Grown();
      Copy("\n");
    }

    method PrintOverflow(o: Pool.Overflow)
      requires Valid() && last + |OverflowText(o)| <= data.Length
      modifies `last, data
      ensures Valid() && Contents() == old(Contents()) + OverflowText(o)
    {
      match o {
        case Ignore => Copy("  overflow: ignore\n");
        case Reject => Copy("  overflow: reject\n");
        case Unset => Copy("  overflow: N/A\n");
      }
    }

    method PrintQueues(u: Upstream)
      requires u.Listed? && Valid() && HasRoom(Queues(u))
      modifies `last, data
      ensures Valid() && Contents() == old(Contents()) + Render(false, Queues(u))
    {
      hide Queues, Render, Line, Uses, Contents, OverflowText;
      QueuesWidth(false, u);
      Grown();
      PrintOverflow(u.overflow);
      Grown();
      Print(Line("  cached connection queue: ", |u.cached|));
      Grown();
      Print(Line("  free'd connection queue: ", |u.freed|));
      Grown();
      PrintUses("  cached connection successfully used count:", u.cached);
      Grown();
      PrintUses("  free'd connection successfully used count:", u.freed);
    }

    lemma Grown()
      requires Valid()
      ensures |Contents()| == last
    {
    }

    method PrintHead(u: Upstream)
      requires u.Listed? && Valid() && HasRoom(Head(u))
      modifies `last, data
      ensures Valid() && Contents() == old(Contents()) + Render(false, Head(u))
    {
      hide Head, Render, Line, Contents;
      HeadWidth(false, u);
      Grown();
      Copy("upstream ");
      Grown();
      Copy(u.host);
      Grown();
      Copy("\n");
      Grown();
      Print(Line("  active connections: ", u.active));
      Grown();
      Print(Line("  connection pool capacity: ", u.maxCached));
    }

    method PrintBlock(u: Upstream)
      requires u.Listed? && Valid() && HasRoom(Block(u))
      modifies `last, data
      ensures Valid() && Contents() == old(Contents()) + Render(false, Block(u))
    {
      hide Head, Queues, Tail, Render, Line, Uses, Block, Contents;
      BlockWidth(false, u);
      Grown();
      PrintHead(u);
      Grown();
      if u.maxCached > 0 {
        PrintQueues(u);
        Grown();
      }
      Print(Line("  servers: ", u.servers));
      Grown();
      Print(Line("  peers: ", u.peers));
    }

    /** The second pass writes the page with every number in 32 bits, and stays within
        an area of the length that the first pass gave. */
    method Fill(pid: Option<nat>, us: seq<Upstream>)
      requires Valid() && last == 0 && data.Length == |Render(true, Page(pid, us))|
      modifies `last, data
      ensures Valid() && Contents() == Render(false, Page(pid, us))
    {
      hide Render, Block, Blocks, Printed, Contents, Announced, Page;
      PageWidth(Page(pid, us));
      PageWidths(false, pid, us);
      Grown();
      PrintPid(pid);
      Grown();
      PrintBlocks(us);
    }

    method PrintPid(pid: Option<nat>)
      requires Valid() && last + |Announced(false, pid)| <= data.Length
      modifies `last, data
      ensures Valid() && Contents() == old(Contents()) + Announced(false, pid)
    {
      hide Render, Printed, Contents;
      if pid.Some? {
        TitleWidth(false, pid.value);
        Print(Title(pid.value));
      }
    }

    method PrintBlocks(us: seq<Upstream>)
      requires Valid() && HasRoom(Blocks(us))
      modifies `last, data
      ensures Valid() && Contents() == old(Contents()) + Render(false, Blocks(us))
    {
      hide Render, Block, Blocks, Printed, Contents;
      Grown();
      PageWidths(false, None, us);
      var n := 0;
      for i := 0 to |us|
        invariant Valid() && Contents() == old(Contents()) + Render(false, Blocks(us[..i]))
        invariant n > 0 <==> Blocks(us[..i]) != []
      {
        BlocksStep(false, us, i);
        BlocksPrefix(us, i + 1);
        Grown();
        if us[i].Unlisted? {
          continue;
        }
        if n != 0 {
          Copy("\n");
          Grown();
        }
        n := n + 1;
        PrintBlock(us[i]);
      }
      assert us[..|us|] == us;
    }
  }

  lemma RenderNext(ps: seq<Piece>, i: nat)
    requires i < |ps|
    ensures Render(false, ps[i..]) == Shown(false, ps[i]) + Render(false, ps[i + 1..])
  {
    assert ps[i..][1..] == ps[i + 1..];
  }

  lemma RenderNothing()
    ensures Render(false, []) == []
  {
  }

  lemma CountsNothing(uses: seq<nat>)
    ensures Render(false, Counts(uses[..0])) == []
  {
  }

  lemma {:induction false} CountsPrefix(uses: seq<nat>, k: nat)
    requires k <= |uses|
    ensures |Render(false, Counts(uses[..k]))| <= |Render(false, Counts(uses))|
    decreases |uses| - k
  {
    hide Printed, Render, Counts;
    if k < |uses| {
      CountsStep(false, uses, k);
      CountsPrefix(uses, k + 1);
    } else {
      assert uses[..k] == uses;
    }
  }

  lemma {:induction false} BlocksPrefix(us: seq<Upstream>, k: nat)
    requires k <= |us|
    ensures |Render(false, Blocks(us[..k]))| <= |Render(false, Blocks(us))|
    decreases |us| - k
  {
    hide Block, Blocks, Render;
    if k < |us| {
      BlocksStep(false, us, k);
      BlocksPrefix(us, k + 1);
    } else {
      assert us[..k] == us;
    }
  }

  /** Every number on the page. */
  ghost predicate AllFit(ps: seq<Piece>) {
    forall i :: 0 <= i < |ps| && ps[i].Number? ==> Fits(ps[i].n)
  }

  /** The handler: None stands for the error page that is sent when the two passes
      disagree. They agree exactly when every number keeps its width in 32 bits. */
  method Report(pid: Option<nat>, us: seq<Upstream>) returns (page: Option<string>)
    ensures page.Some? <==> AllFit(Page(pid, us))
    ensures page.Some? ==> page.value == Render(false, Page(pid, us))
  {
    hide Render, Page, Fits;
    var len := Measure(pid, us);
    var b := new Area(len);
    b.Fill(pid, us);
    PageWidth(Page(pid, us));
    if b.last != b.data.Length {
      page := None;
    } else {
      page := Some(b.data[..]);
    }
  }

  /** With all numbers below 2^32 the page is complete and shows them in full. */
  lemma {:induction false} SmallNumbers(ps: seq<Piece>)
    requires forall i :: 0 <= i < |ps| && ps[i].Number? ==> ps[i].n < 0x1_0000_0000
    ensures AllFit(ps) && Render(false, ps) == Render(true, ps)
  {
    hide Digits;
    if ps != [] {
      assert forall i :: 0 <= i < |ps[1..]| ==> ps[1..][i] == ps[i + 1];
      SmallNumbers(ps[1..]);
      assert Shown(false, ps[0]) == Shown(true, ps[0]);
      hide Shown;
    }
  }

  /** From 2^32 on the two passes can disagree, and the page is lost: here for an item of
      the pool that was used so often. */
  lemma LargeNumber(pid: Option<nat>, us: seq<Upstream>)
    requires us == [Listed("db", 1, 1, Pool.Ignore, [0x1_0000_0000], [], 1, 1)]
    ensures !AllFit(Page(pid, us))
  {
    hide AllFit, Fits, OverflowText, Line, Uses, Counts, Head, Tail;
    var u := us[0];
    LargeCount("  cached connection successfully used count:");
    var before := [Text(OverflowText(u.overflow))] + Line("  cached connection queue: ", |u.cached|)
                + Line("  free'd connection queue: ", |u.freed|);
    var use := Uses("  cached connection successfully used count:", u.cached);
    var after := Uses("  free'd connection successfully used count:", u.freed);
    AllFitParts(before, use);
    AllFitParts(before + use, after);
    AllFitParts(Head(u), Queues(u));
    AllFitParts(Head(u) + Queues(u), Tail(u));
    assert us[..0] == [] && Blocks(us[..0]) == [];
    assert Blocks(us) == Block(u);
    if pid.Some? {
      AllFitParts(Title(pid.value), Blocks(us));
    } else {
      assert Page(pid, us) == Blocks(us);
    }
  }

  lemma AllFitParts(a: seq<Piece>, b: seq<Piece>)
    ensures AllFit(a + b) ==> AllFit(a) && AllFit(b)
  {
    assert forall i :: 0 <= i < |a| ==> (a + b)[i] == a[i];
    assert forall i :: 0 <= i < |b| ==> (a + b)[|a| + i] == b[i];
  }

  lemma LargeCount(name: string)
    ensures !AllFit(Uses(name, [0x1_0000_0000]))
  {
    var n := 0x1_0000_0000;
    assert [n][..0] == [];
    assert Counts([n]) == [Text(" "), Number(n)];
    assert Uses(name, [n])[2] == Number(n);
  }
}
