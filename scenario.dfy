/** `gns3/scenario.py` repeats the dialogues and helpers of `gns3/gns3utils.py`
    without the `pre_exec` viewer. One difference matters: its interface-file
    function has no default for the nameserver, while its cluster builder calls
    it with four arguments. */
module Scenario {
  import opened PyErrors
  import opened Base64
  import opened Telnet
  import opened IPv4
  import opened Topology
  import opened Gns3Utils

  /** The installation dialogue, identical to the one in `gns3utils.py`. */
  method InstallVyosImageOnNode(console: seq<Reply>) returns (tn: Session)
    ensures fresh(tn) && tn.console == console && !tn.isOpen
    ensures tn.written == InstallLines
  {
    var viewerKilled;
    tn, viewerKilled := Gns3Utils.InstallVyosImageOnNode(console, false);
  }

  /** The configuration dialogue, identical to the one in `gns3utils.py`: five
      lines and a warning when no md5sum line comes, otherwise all nine lines
      and a warning only on a checksum mismatch. */
  method ConfigureVyosImageOnNode(console: seq<Reply>, script: seq<byte>, md5: seq<byte> -> string)
    returns (tn: Session, warnings: seq<string>)
    ensures fresh(tn) && tn.console == console && !tn.isOpen
    ensures RemoteChecksumLine(console).None? ==>
      && tn.written == Lines(ConfigurePrologue(script)) + [ChecksumCommand]
      && warnings == [NoChecksumWarning]
    ensures RemoteChecksumLine(console).Some? ==>
      && tn.written == Lines(ConfigurePrologue(script)) + [ChecksumCommand] + Lines(ConfigureEpilogue)
      && warnings == (if RemoteChecksumLine(console).value[..32] == md5(script) then [] else [MismatchWarning])
  {
    var viewerKilled;
    tn, warnings, viewerKilled := Gns3Utils.ConfigureVyosImageOnNode(console, script, md5, false);
  }

  /** `get_static_interface_config_file` as `scenario.py` declares it: `nameserver`
      is a required argument (`None` here stands for an argument the caller left
      out, `Some(None)` for Python's `None`). */
  function StaticInterfaceConfigFile(iface: string, address: string, netmask: string, gateway: string,
                                     nameserver: Option<Option<string>>): (r: Result<string>)
    ensures r.Err? <==> nameserver.None?
    ensures r.Err? ==> r.error.TypeError?
    ensures r.Ok? ==> r.value == Gns3Utils.StaticInterfaceConfigFile(iface, address, netmask, gateway, nameserver.value)
  {
    if nameserver.None? then Err(TypeError("missing 1 required positional argument: 'nameserver'"))
    else Ok(Gns3Utils.StaticInterfaceConfigFile(iface, address, netmask, gateway, nameserver.value))
  }

  /** Between the switch, the devices and the links, the grid holds no interface
      settings. */
  lemma GridHasNoInterfaces(calls: seq<ApiCall>, base: nat, l: Layout, num: nat, switchT: string,
                            deviceT: string, g: Grid)
    requires GridLaidOut(calls, base, l, num, switchT, deviceT, g)
    ensures forall k :: base <= k < base + 1 + 2 * num ==> !calls[k].SetInterfaces?
  {
    forall k | base <= k < base + 1 + 2 * num
      ensures !calls[k].SetInterfaces?
    {
      if k == base {
      } else if k <= base + num {
        assert calls[base + 1 + (k - base - 1)] == DeviceCall(l, k - base - 1, deviceT);
      } else {
        assert calls[base + 1 + num + (k - base - 1 - num)]
               == CreateLink(g.nodes[k - base - 1 - num], 0, g.switchId, k - base - num);
      }
    }
  }

  /** `create_cluster_of_devices` of `scenario.py`, as written: the grid and links
      are built as in `gns3utils.py`, but the first device's interface file is
      requested with four arguments, which raises a TypeError. So any cluster
      with devices ends there, without a single interface configured or the
      label drawn; only an empty cluster completes. */
  method CreateClusterOfDevices(project: Project, num: int, startX: int, startY: int, switchT: string,
                                deviceT: string, startIp: Address, perRow: int)
    returns (r: Result<Cluster>)
    modifies project`calls
    ensures |project.calls| >= |old(project.calls)| && project.calls[..|old(project.calls)|] == old(project.calls)
    ensures num >= 64 || num < 0 ==> r == Err(AssertionError)
    ensures 0 < num < 64 && perRow == 0 ==> r == Err(ZeroDivisionError)
    ensures 0 < num < 64 && perRow != 0 ==>
              && r.Err? && r.error.TypeError?
              && |project.calls| == |old(project.calls)| + 1 + 2 * num
              && forall k :: |old(project.calls)| <= k < |project.calls| ==> !project.calls[k].SetInterfaces?
    ensures r.Ok? <==> num == 0 && startIp >= 1
    ensures r.Ok? ==> ClusterBuilt(project.calls, |old(project.calls)|, Layout(startX, startY, project.gridUnit, perRow),
                                   0, switchT, deviceT, startIp, r.value)
  {
    var l := Layout(startX, startY, project.gridUnit, perRow);
    var base := |project.calls|;
    var grid := CreateGrid(project, num, l, switchT, deviceT);
    if grid.Err? {
      return Err(grid.error);
    }
    var nodes := grid.value.nodes;
    GridHasNoInterfaces(project.calls, base, l, num, switchT, deviceT, grid.value);
    ghost var mid := project.calls;
    // The configuration loop: its first pass already raises, so it is written
    // as that first pass.
    if |nodes| > 0 {
      var a := Offset(startIp, 0);
      if a.Err? {
        return Err(a.error);
      }
      var payload := StaticInterfaceConfigFile("eth0", Format(a.value), ClusterNetmask, ClusterGateway, None);
      if payload.Err? {
        return Err(payload.error);
      }
    }
    var past := Offset(startIp, num);
    var last := if past.Ok? then Offset(past.value, -1) else past;
    if last.Err? {
      return Err(last.error);
    }
    project.DrawLabel(startX + (TruncHalf(perRow) + 2) * project.gridUnit, startY - project.gridUnit,
                      startIp, last.value, ClusterNetmask);
    r := Ok(Cluster(grid.value, startX, startY));
    ClusterAssembled(mid, mid, project.calls, base, l, 0, switchT, deviceT, startIp, r.value);
  }

  /** Leaving the nameserver out fails; passing `None` for it gives the file of
      `gns3utils.py`, with the gateway as nameserver. */
  lemma FourArgumentCallFails(iface: string, address: string, netmask: string, gateway: string)
    ensures StaticInterfaceConfigFile(iface, address, netmask, gateway, None).Err?
    ensures StaticInterfaceConfigFile(iface, address, netmask, gateway, Some(None))
            == Ok(Gns3Utils.StaticInterfaceConfigFile(iface, address, netmask, gateway, None))
  {
  }
}
