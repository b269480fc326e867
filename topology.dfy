/** The GNS3 project as the topology code sees it: a server that records the
    nodes, links, files and drawings it is asked to create, and the grid layout
    of a cluster of devices around a switch (`create_cluster_of_devices`). */
module Topology {
  import opened PyErrors
  import opened IPv4

  /** One REST request that changes the project. */
  datatype ApiCall =
    | CreateNode(x: int, y: int, templateId: string)
    | CreateLink(node1: nat, adapter1: int, node2: nat, adapter2: int)
    | SetInterfaces(node: nat, iface: string, ip: Address, netmask: string, gateway: string, nameserver: Option<string>)
    | CreateLabel(x: int, y: int, first: Address, last: Address, netmask: string)

  /** A GNS3 project on the server. The server answers every creation with a fresh
      identifier; here that is the position of the request in `calls`. */
  class Project {
    const gridUnit: int
    var calls: seq<ApiCall>

    constructor (gridUnit: int)
      ensures this.gridUnit == gridUnit && calls == []
    {
      this.gridUnit := gridUnit;
      calls := [];
    }

    /** `create_node`: a node from a template at a position. */
    method CreateNodeAt(x: int, y: int, templateId: string) returns (id: nat)
      modifies this`calls
      ensures calls == old(calls) + [CreateNode(x, y, templateId)]
      ensures id == |old(calls)|
    {
      id := |calls|;
      calls := calls + [CreateNode(x, y, templateId)];
    }

    /** `create_link`: a link between adapter `adapter1` of `node1` and adapter
        `adapter2` of `node2`, both on port 0. */
    method Link(node1: nat, adapter1: int, node2: nat, adapter2: int) returns (id: nat)
      modifies this`calls
      ensures calls == old(calls) + [CreateLink(node1, adapter1, node2, adapter2)]
      ensures id == |old(calls)|
    {
      id := |calls|;
      calls := calls + [CreateLink(node1, adapter1, node2, adapter2)];
    }

    /** `set_node_network_interfaces`: the POST of a static interface file for
        `ip` to `/nodes/{node}/files/etc/network/interfaces`. */
    method SetNodeNetworkInterfaces(node: nat, iface: string, ip: Address, netmask: string, gateway: string,
                                    nameserver: Option<string>)
      modifies this`calls
      ensures calls == old(calls) + [SetInterfaces(node, iface, ip, netmask, gateway, nameserver)]
    {
      calls := calls + [SetInterfaces(node, iface, ip, netmask, gateway, nameserver)];
    }

    /** A POST to `/drawings` of a text naming an address range and a netmask. */
    method DrawLabel(x: int, y: int, first: Address, last: Address, netmask: string)
      modifies this`calls
      ensures calls == old(calls) + [CreateLabel(x, y, first, last, netmask)]
    {
      calls := calls + [CreateLabel(x, y, first, last, netmask)];
    }
  }

  lemma ModOfShift(a: int, b: int)
    requires b < 0
    ensures (a % b + b) % b == a % b
  {
    var m := a % b;
    assert m + b == m - (-b);
  }

  /** Python's `a % b`: the remainder takes the sign of the divisor. */
  function PyMod(a: int, b: int): (r: int)
    requires b != 0
    ensures b > 0 ==> r == a % b
    ensures b < 0 ==> b < r <= 0 && r % b == a % b
  {
    if b > 0 || a % b == 0 then a % b
    else
      ModOfShift(a, b);
      a % b + b
  }

  /** Python's `int(p / 2)`: the half of `p` truncated toward zero. */
  function TruncHalf(p: int): (h: int)
    ensures 0 <= p ==> 0 <= 2 * h <= p < 2 * h + 2
    ensures p < 0 ==> 2 * h - 2 < p <= 2 * h <= 0
  {
    if p >= 0 then p / 2 else -((-p) / 2)
  }

  lemma MulAtLeast(d: int, p: int)
    requires d >= 1 && p > 0
    ensures d * p >= p
  {
    assert d * p == (d - 1) * p + p;
  }

  lemma DivUnique(n: int, p: int, q: int, m: int)
    requires p > 0 && 0 <= m < p && n == q * p + m
    ensures n / p == q && n % p == m
  {
    var d := n / p - q;
    assert n == (n / p) * p + n % p;
    assert d * p == m - n % p by {
      assert (n / p) * p == (q + d) * p == q * p + d * p;
    }
    if d >= 1 {
      MulAtLeast(d, p);
    } else if d <= -1 {
      MulAtLeast(-d, p);
    }
  }

  /** The grid of a cluster: origin, grid unit and devices per row. */
  datatype Layout = Layout(startX: int, startY: int, unit: int, perRow: int)

  /** The row of device `i`. With a negative `perRow` Python's remainder never
      reaches `perRow - 1`, so every device stays on the first row. */
  function Row(i: nat, perRow: int): nat
  {
    if perRow > 0 then i / perRow else 0
  }

  /** The row counter advances exactly after the last device of a row. */
  lemma RowStep(i: nat, p: int)
    requires p != 0
    ensures Row(i + 1, p) == Row(i, p) + (if PyMod(i, p) == p - 1 then 1 else 0)
  {
    if p > 0 {
      var q, m := i / p, i % p;
      if m == p - 1 {
        DivUnique(i + 1, p, q + 1, 0);
      } else {
        DivUnique(i + 1, p, q, m + 1);
      }
    }
  }

  /** Where the switch goes: half a row to the right of the origin, one unit above. */
  function SwitchCall(l: Layout, template: string): ApiCall
  {
    CreateNode(l.startX + TruncHalf(l.perRow) * l.unit, l.startY - l.unit, template)
  }

  /** Where device `i` goes: column `i % perRow`, row `Row(i, perRow)`. */
  function DeviceCall(l: Layout, i: nat, template: string): ApiCall
    requires l.perRow != 0
  {
    CreateNode(l.startX + PyMod(i, l.perRow) * l.unit, l.startY + Row(i, l.perRow) * l.unit, template)
  }

  /** With a positive row length no two devices share a grid cell. */
  lemma CellsDistinct(l: Layout, i: nat, j: nat, template: string)
    requires l.perRow > 0 && l.unit != 0 && i != j
    ensures DeviceCall(l, i, template) != DeviceCall(l, j, template)
  {
    var p, u := l.perRow, l.unit;
    if PyMod(i, p) * u == PyMod(j, p) * u && Row(i, p) * u == Row(j, p) * u {
      MulCancel(PyMod(i, p), PyMod(j, p), u);
      MulCancel(Row(i, p), Row(j, p), u);
    }
  }

  lemma MulCancel(a: int, b: int, u: int)
    requires u != 0 && a * u == b * u
    ensures a == b
  {
    assert (a - b) * u == 0;
  }

  /** Device `i` sits `Row(i, perRow)` units below the origin: with a positive row
      length, `perRow` devices to a row. */
  lemma RowsOfDevices(i: nat, p: int)
    requires p > 0
    ensures Row(i, p) * p <= i < (Row(i, p) + 1) * p
  {
  }

  /** What the switch, device and link creation of a cluster leaves in `calls`
      after the `base` requests that came before it: the switch, then device `i`
      in its cell, then the link from adapter 0 of device `i` to adapter `i + 1`
      of the switch. */
  ghost predicate GridLaidOut(calls: seq<ApiCall>, base: nat, l: Layout, num: nat,
                              switchT: string, deviceT: string, g: Grid)
  {
    && |calls| >= base + 1 + 2 * num
    && calls[base] == SwitchCall(l, switchT)
    && g.switchId == base
    && |g.nodes| == num && |g.links| == num
    && (num > 0 ==> l.perRow != 0)
    && (forall i :: 0 <= i < num ==> g.nodes[i] == base + 1 + i)
    && (forall i :: 0 <= i < num && l.perRow != 0 ==> calls[base + 1 + i] == DeviceCall(l, i, deviceT))
    && (forall i :: 0 <= i < num ==> g.links[i] == base + 1 + num + i)
    && (forall i :: 0 <= i < num ==> calls[base + 1 + num + i] == CreateLink(g.nodes[i], 0, g.switchId, i + 1))
    && g.xf == l.startX + (l.perRow - 1) * l.unit
    && g.yf == l.startY + Row(num, l.perRow) * l.unit
  }

  lemma LaidOutExtends(calls: seq<ApiCall>, more: seq<ApiCall>, base: nat, l: Layout, num: nat,
                       switchT: string, deviceT: string, g: Grid)
    requires GridLaidOut(calls, base, l, num, switchT, deviceT, g)
    ensures GridLaidOut(calls + more, base, l, num, switchT, deviceT, g)
  {
    var c := calls + more;
    assert forall k :: 0 <= k < |calls| ==> c[k] == calls[k];
  }

  /** The identifiers a cluster is built from, and the last grid corner `(Xf, Yf)`. */
  datatype Grid = Grid(switchId: nat, nodes: seq<nat>, links: seq<nat>, xf: int, yf: int)

  /** Devices `nodes` were created one after the other from request `base` on,
      device `k` in its cell. */
  ghost predicate DevicesPlaced(calls: seq<ApiCall>, base: nat, l: Layout, nodes: seq<nat>, deviceT: string)
  {
    && |calls| >= base + |nodes|
    && (|nodes| > 0 ==> l.perRow != 0)
    && (forall k :: 0 <= k < |nodes| ==> nodes[k] == base + k)
    && (forall k :: 0 <= k < |nodes| && l.perRow != 0 ==> calls[base + k] == DeviceCall(l, k, deviceT))
  }

  /** Links `links` were created one after the other from request `base` on, link
      `k` joining adapter 0 of device `k` to adapter `k + 1` of the switch. */
  ghost predicate DevicesLinked(calls: seq<ApiCall>, base: nat, nodes: seq<nat>, switchId: nat, links: seq<nat>)
  {
    && |calls| >= base + |links|
    && |links| <= |nodes|
    && (forall k :: 0 <= k < |links| ==> links[k] == base + k)
    && (forall k :: 0 <= k < |links| ==> calls[base + k] == CreateLink(nodes[k], 0, switchId, k + 1))
  }

  lemma PrefixKept<T>(s: seq<T>, x: T, n: nat)
    requires n <= |s|
    ensures (s + [x])[..n] == s[..n]
  {
  }

  lemma RowOffsetStep(i: nat, p: int, u: int)
    requires p != 0
    ensures Row(i + 1, p) * u == Row(i, p) * u + (if PyMod(i, p) == p - 1 then u else 0)
  {
    RowStep(i, p);
  }

  lemma PlacedStep(calls: seq<ApiCall>, base: nat, l: Layout, nodes: seq<nat>, deviceT: string)
    requires l.perRow != 0 && |calls| == base + |nodes|
    requires DevicesPlaced(calls, base, l, nodes, deviceT)
    ensures DevicesPlaced(calls + [DeviceCall(l, |nodes|, deviceT)], base, l, nodes + [base + |nodes|], deviceT)
  {
    var c := calls + [DeviceCall(l, |nodes|, deviceT)];
    assert forall k :: 0 <= k < |calls| ==> c[k] == calls[k];
  }

  /** The device loop of `create_cluster_of_devices`: device `i` goes to column
      `i % perRow`, and `dy` grows by one unit after the last device of a row. */
  method PlaceDevices(project: Project, num: int, l: Layout, deviceT: string)
    returns (r: Result<(seq<nat>, int)>)
    requires l.unit == project.gridUnit
    modifies project`calls
    ensures num > 0 && l.perRow == 0 ==> r == Err(ZeroDivisionError) && project.calls == old(project.calls)
    ensures num <= 0 || l.perRow != 0 ==>
              && r.Ok?
              && var (nodes, dy) := r.value;
              && |nodes| == (if num < 0 then 0 else num)
              && |project.calls| == |old(project.calls)| + |nodes|
              && project.calls[..|old(project.calls)|] == old(project.calls)
              && DevicesPlaced(project.calls, |old(project.calls)|, l, nodes, deviceT)
              && dy == Row(|nodes|, l.perRow) * l.unit
  {
    var base := |project.calls|;
    var nodes: seq<nat> := [];
    var dy := 0;
    var i := 0;
    while i < num
      invariant 0 <= i && (num >= 0 ==> i <= num) && (num < 0 ==> i == 0)
      invariant |project.calls| == base + i && project.calls[..base] == old(project.calls)
      invariant |nodes| == i && DevicesPlaced(project.calls, base, l, nodes, deviceT)
      invariant dy == Row(i, l.perRow) * l.unit
    {
      if l.perRow == 0 {
        return Err(ZeroDivisionError);
      }
      ghost var before := project.calls;
      var id := project.CreateNodeAt(l.startX + PyMod(i, l.perRow) * project.gridUnit, l.startY + dy, deviceT);
      PlacedStep(before, base, l, nodes, deviceT);
      PrefixKept(before, CreateNode(l.startX + PyMod(i, l.perRow) * l.unit, l.startY + dy, deviceT), base);
      nodes := nodes + [id];
      RowOffsetStep(i, l.perRow, l.unit);
      if PyMod(i, l.perRow) == l.perRow - 1 {
        dy := dy + project.gridUnit;
      }
      i := i + 1;
    }
    r := Ok((nodes, dy));
  }

  /** The link loop of `create_cluster_of_devices`: device `k` (counting from 0)
      is linked on adapter 0 to adapter `k + 1` of the switch. */
  method LinkDevices(project: Project, nodes: seq<nat>, switchId: nat) returns (links: seq<nat>)
    modifies project`calls
    ensures |links| == |nodes|
    ensures |project.calls| == |old(project.calls)| + |nodes|
    ensures project.calls[..|old(project.calls)|] == old(project.calls)
    ensures DevicesLinked(project.calls, |old(project.calls)|, nodes, switchId, links)
  {
    var base := |project.calls|;
    links := [];
    var k := 0;
    while k < |nodes|
      invariant 0 <= k <= |nodes|
      invariant |project.calls| == base + k && project.calls[..base] == old(project.calls)
      invariant |links| == k && DevicesLinked(project.calls, base, nodes, switchId, links)
    {
      ghost var before := project.calls;
      var id := project.Link(nodes[k], 0, switchId, k + 1);
      assert forall j :: 0 <= j < |before| ==> project.calls[j] == before[j];
      assert project.calls[..base] == before[..base];
      links := links + [id];
      k := k + 1;
    }
  }

  /** The switch, the placed devices and their links make up the cluster grid. */
  lemma GridFromParts(mid: seq<ApiCall>, calls: seq<ApiCall>, base: nat, l: Layout, num: nat,
                      switchT: string, deviceT: string, g: Grid)
    requires |mid| == base + 1 + num && |calls| == |mid| + num && calls[..|mid|] == mid
    requires mid[base] == SwitchCall(l, switchT) && g.switchId == base && |g.nodes| == num
    requires DevicesPlaced(mid, base + 1, l, g.nodes, deviceT)
    requires DevicesLinked(calls, |mid|, g.nodes, g.switchId, g.links) && |g.links| == num
    requires g.xf == l.startX + (l.perRow - 1) * l.unit
    requires g.yf == l.startY + Row(num, l.perRow) * l.unit
    ensures GridLaidOut(calls, base, l, num, switchT, deviceT, g)
  {
    assert forall k :: 0 <= k < |mid| ==> calls[k] == mid[k];
  }

  /** The first half of `create_cluster_of_devices`: the size assertion, the switch,
      the device grid and the links from each device to the switch. */
  method CreateGrid(project: Project, num: int, l: Layout, switchT: string, deviceT: string)
    returns (r: Result<Grid>)
    requires l.unit == project.gridUnit
    modifies project`calls
    ensures num >= 64 ==> r == Err(AssertionError) && project.calls == old(project.calls)
    ensures num < 0 ==> r == Err(AssertionError) && project.calls == old(project.calls) + [SwitchCall(l, switchT)]
    ensures 0 < num < 64 && l.perRow == 0 ==>
              r == Err(ZeroDivisionError) && project.calls == old(project.calls) + [SwitchCall(l, switchT)]
    ensures 0 <= num < 64 && (num == 0 || l.perRow != 0) ==>
              && r.Ok?
              && |project.calls| == |old(project.calls)| + 1 + 2 * num
              && project.calls[..|old(project.calls)|] == old(project.calls)
              && GridLaidOut(project.calls, |old(project.calls)|, l, num, switchT, deviceT, r.value)
  {
    if num >= 64 {
      return Err(AssertionError);
    }
    var base := |project.calls|;
    var switchId := project.CreateNodeAt(l.startX + TruncHalf(l.perRow) * project.gridUnit,
                                         l.startY - project.gridUnit, switchT);
    var placed := PlaceDevices(project, num, l, deviceT);
    if placed.Err? {
      return Err(placed.error);
    }
    var (nodes, dy) := placed.value;
    if |nodes| != num {
      return Err(AssertionError);
    }
    var xf, yf := l.startX + (l.perRow - 1) * project.gridUnit, l.startY + dy;
    ghost var mid := project.calls;
    var links := LinkDevices(project, nodes, switchId);
    assert |links| == num;
    r := Ok(Grid(switchId, nodes, links, xf, yf));
    GridFromParts(mid, project.calls, base, l, num, switchT, deviceT, r.value);
    assert project.calls[..base] == mid[..base] by {
      assert project.calls[..base] == project.calls[..|mid|][..base];
    }
  }
}
