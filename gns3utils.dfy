/** The deterministic parts of `gns3/gns3utils.py`: the scripted VyOS console
    dialogues (installation and configuration upload), the text of a static
    interface file, template lookup, the console host choice, link filtering and
    the layout and addressing of a cluster of devices. */
module Gns3Utils {
  import opened PyErrors
  import opened PyStr
  import opened Base64
  import opened Telnet
  import opened IPv4
  import opened Topology

  /** The shell prompt of the `vyos` user. */
  const Prompt := "vyos@vyos:~$"

  /** Send a line and wait for one pattern. */
  function Ask(line: string, question: string): Exchange
  {
    Exchange(line, [Literal(question)])
  }

  /** The installation after the login prompt: each answer and the question it
      waits for next; the last answer is not waited on. */
  const InstallScript: seq<Exchange> := [
    Ask("vyos\n", "Password:"),
    Ask("vyos\n", Prompt),
    Ask("install image\n", "Would you like to continue? (Yes/No)"),
    Ask("Yes\n", "Partition (Auto/Parted/Skip)"),
    Ask("Auto\n", "Install the image on"),
    Ask("\n", "Continue? (Yes/No)"),
    Ask("Yes\n", "How big of a root partition should I create"),
    Ask("\n", "What would you like to name this image"),
    Ask("\n", "Which one should I copy to"),
    Ask("\n", "Enter password for user 'vyos':"),
    Ask("vyos\n", "Retype password for user 'vyos':"),
    Ask("vyos\n", "Which drive should GRUB modify the boot partition on"),
    Ask("\n", Prompt),
    Ask("poweroff\n", "Are you sure you want to poweroff this system"),
    Exchange("y\n", [])]

  /** The lines the installation sends: fifteen, in this order. */
  const InstallLines: seq<string> := [
    "vyos\n", "vyos\n", "install image\n", "Yes\n", "Auto\n", "\n", "Yes\n", "\n", "\n", "\n",
    "vyos\n", "vyos\n", "\n", "poweroff\n", "y\n"]

  lemma InstallScriptSends()
    ensures Lines(InstallScript) == InstallLines
  {
  }

  /** `install_vyos_image_on_node`: log in and answer the `install image`
      questions. The dialogue never looks at what `expect` found, so the lines sent
      are the same whatever the console prints; the connection is closed at the
      end, and the terminal viewer started for `pre_exec` is killed. */
  method InstallVyosImageOnNode(console: seq<Reply>, preExec: bool) returns (tn: Session, viewerKilled: bool)
    ensures fresh(tn) && tn.console == console && !tn.isOpen
    ensures tn.written == InstallLines
    ensures viewerKilled == preExec
  {
    tn := new Session(console);
    var out := tn.ReadUntil("vyos login:");
    tn.Run(InstallScript);
    InstallScriptSends();
    tn.Close();
    viewerKilled := preExec;
  }

  /** The shell command that appends the Base64 text of the script to
      `config.b64`. */
  function UploadCommand(script: seq<byte>): string
  {
    "echo '" + Encode(script) + "' >> config.b64\n"
  }

  /** How a POSIX shell reads `echo '<argument>' >> <target>`: the argument is
      everything up to the next single quote, and the command must go on with
      exactly ` >> <target>` and a line break. None for any other command. */
  function EchoAppendArgument(command: string, target: string): Option<string>
  {
    if |command| < 6 || command[..6] != "echo '" then None
    else
      var rest := command[6..];
      var k := Find(rest, '\'');
      if rest[k..] == "' >> " + target + "\n" then Some(rest[..k]) else None
  }

  /** A quoted argument without a quote in it comes back whole. */
  lemma EchoAppendQuoted(arg: string, target: string)
    requires '\'' !in arg
    ensures EchoAppendArgument("echo '" + arg + "' >> " + target + "\n", target) == Some(arg)
  {
    var command := "echo '" + arg + "' >> " + target + "\n";
    assert command[..6] == "echo '";
    var rest := command[6..];
    assert rest == arg + ("' >> " + target + "\n");
    var k := Find(rest, '\'');
    assert rest[|arg|] == '\'';
    assert forall i :: 0 <= i < |arg| ==> rest[i] == arg[i];
    assert k == |arg|;
    assert rest[..k] == arg;
  }

  /** The upload survives the shell and the remote decoder: the quoted argument
      is the whole Base64 text (it holds no quote to end it early), `echo` writes
      it with a line break, and `base64 --decode` turns that file back into the
      script. */
  lemma UploadRoundTrip(script: seq<byte>)
    ensures EchoAppendArgument(UploadCommand(script), "config.b64") == Some(Encode(script))
    ensures RemoteDecode(Encode(script) + "\n") == Some(script)
  {
    var e := Encode(script);
    EncodeAlphabet(script);
    assert '\'' !in e;
    assert UploadCommand(script) == "echo '" + e + "' >> " + "config.b64" + "\n";
    EchoAppendQuoted(e, "config.b64");
    RemoteDecodeEchoed(script);
  }

  /** The login and upload that come before the checksum. */
  function ConfigurePrologue(script: seq<byte>): seq<Exchange>
  {
    [Ask("vyos\n", "Password:"),
     Ask("vyos\n", Prompt),
     Ask(UploadCommand(script), Prompt),
     Ask("base64 --decode config.b64 > config.sh\n", Prompt)]
  }

  const ChecksumCommand := "md5sum config.sh\n"

  /** Run the uploaded script and power the router off. */
  const ConfigureEpilogue: seq<Exchange> := [
    Ask("chmod +x config.sh\n", Prompt),
    Exchange("./config.sh\n", [Literal("Done"), Literal(Prompt)]),
    Ask("poweroff\n", "Are you sure you want to poweroff this system"),
    Exchange("y\n", [])]

  const NoChecksumWarning := "Error generating file MD5 checksum."
  const MismatchWarning := "Checksums do not match."

  /** The md5sum line matched during the sixth wait (after the login wait and
      four prompts), if the console printed one. */
  function RemoteChecksumLine(console: seq<Reply>): Option<string>
  {
    Matched(DigestLine, ReplyAt(console, 5))
  }

  /** The checksum `split()[0]` takes from a matched md5sum line is its 32
      hexadecimal digits. */
  lemma ChecksumToken(w: string)
    requires IsDigestLine(w)
    ensures FirstWord(w) == w[..32]
  {
    assert !IsSpace(w[0]);
    assert w[LeadingSpaces(w)..] == w;
    assert w[32] == ' ';
    var t := TakeWord(w);
    assert forall i :: 0 <= i < 32 ==> !IsSpace(w[i]);
  }

  /** `configure_vyos_image_on_node`: log in, upload the script in Base64 and
      decode it, compare checksums, run it and power off. When no md5sum line
      comes, the dialogue warns and leaves the `with` block (closing the
      connection) before anything else is sent, and the viewer is not killed; a
      checksum mismatch only warns, and the rest of the dialogue goes on. */
  method ConfigureVyosImageOnNode(console: seq<Reply>, script: seq<byte>, md5: seq<byte> -> string, preExec: bool)
    returns (tn: Session, warnings: seq<string>, viewerKilled: bool)
    ensures fresh(tn) && tn.console == console && !tn.isOpen
    ensures RemoteChecksumLine(console).None? ==>
      && tn.written == Lines(ConfigurePrologue(script)) + [ChecksumCommand]
      && warnings == [NoChecksumWarning]
      && !viewerKilled
    ensures RemoteChecksumLine(console).Some? ==>
      && tn.written == Lines(ConfigurePrologue(script)) + [ChecksumCommand] + Lines(ConfigureEpilogue)
      && warnings == (if RemoteChecksumLine(console).value[..32] == md5(script) then [] else [MismatchWarning])
      && viewerKilled == preExec
  {
    var localChecksum := md5(script);
    tn := new Session(console);
    var out := tn.ReadUntil("vyos login:");
    tn.Run(ConfigurePrologue(script));
    WaitCountSingle(ConfigurePrologue(script));
    tn.Write(ChecksumCommand);
    ghost var sent := tn.written;
    assert sent == Lines(ConfigurePrologue(script)) + [ChecksumCommand];
    assert tn.Pending() == ReplyAt(console, 5);
    var index, found := tn.Expect(DigestLine);
    assert found == RemoteChecksumLine(console);
    if index == -1 {
      warnings := [NoChecksumWarning];
      tn.Close();
      viewerKilled := false;
      return;
    }
    var uploadedChecksum := FirstWord(found.value);
    assert uploadedChecksum == found.value[..32] by {
      ChecksumToken(found.value);
    }
    warnings := if uploadedChecksum != localChecksum then [MismatchWarning] else [];
    tn.Run(ConfigureEpilogue);
    assert tn.written == sent + Lines(ConfigureEpilogue);
    tn.Close();
    viewerKilled := preExec;
  }

  /** The eight lines of a Debian `interfaces` stanza for a static address. */
  function InterfaceLines(iface: string, address: string, netmask: string, gateway: string, ns: string): seq<string>
  {
    [ "# autogenerated",
      "# Static config for " + iface,
      "auto " + iface,
      "iface " + iface + " inet static",
      "\taddress " + address,
      "\tnetmask " + netmask,
      "\tgateway " + gateway,
      "\tup echo nameserver " + ns + " > /etc/resolv.conf" ]
  }

  /** `get_static_interface_config_file`: the stanza's lines, each ended by a
      newline; without a nameserver the gateway is used. */
  function StaticInterfaceConfigFile(iface: string, address: string, netmask: string, gateway: string,
                                     nameserver: Option<string>): string
  {
    var ns := if nameserver.None? then gateway else nameserver.value;
    Unlines(InterfaceLines(iface, address, netmask, gateway, ns))
  }

  lemma NoNewline3(a: string, b: string, c: string)
    requires forall i :: 0 <= i < |a| ==> a[i] != '\n'
    requires '\n' !in b
    requires forall i :: 0 <= i < |c| ==> c[i] != '\n'
    ensures '\n' !in a + b + c && a + b + "" == a + b
  {
    assert forall i :: 0 <= i < |a + b + c| ==> (a + b + c)[i] != '\n';
  }

  /** Read back line by line, the file is exactly the eight lines, each
      newline-terminated, with the gateway as nameserver when none is given. */
  lemma StaticInterfaceConfigLines(iface: string, address: string, netmask: string, gateway: string,
                                   nameserver: Option<string>)
    requires '\n' !in iface && '\n' !in address && '\n' !in netmask && '\n' !in gateway
    requires nameserver.Some? ==> '\n' !in nameserver.value
    ensures Split(StaticInterfaceConfigFile(iface, address, netmask, gateway, nameserver), '\n')
            == InterfaceLines(iface, address, netmask, gateway,
                              if nameserver.None? then gateway else nameserver.value) + [""]
  {
    var ns := if nameserver.None? then gateway else nameserver.value;
    var l := InterfaceLines(iface, address, netmask, gateway, ns);
    NoNewline3("", "# autogenerated", "");
    NoNewline3("# Static config for ", iface, "");
    NoNewline3("auto ", iface, "");
    NoNewline3("iface ", iface, " inet static");
    NoNewline3("\taddress ", address, "");
    NoNewline3("\tnetmask ", netmask, "");
    NoNewline3("\tgateway ", gateway, "");
    NoNewline3("\tup echo nameserver ", ns, " > /etc/resolv.conf");
    SplitUnlines(l);
  }

  /** The two fields of a GNS3 template that the lookup reads. */
  datatype Template = Template(name: string, templateId: string)

  /** `get_template_id_from_name`: the identifier of the first template with that
      name, and None exactly when no template has it. */
  function TemplateIdFromName(templates: seq<Template>, name: string): (r: Option<string>)
    ensures r.None? <==> forall k :: 0 <= k < |templates| ==> templates[k].name != name
    ensures r.Some? ==> exists k :: 0 <= k < |templates| && templates[k].name == name
                                    && r.value == templates[k].templateId
                                    && forall j :: 0 <= j < k ==> templates[j].name != name
    decreases |templates|
  {
    if |templates| == 0 then None
    else if templates[0].name == name then Some(templates[0].templateId)
    else
      var r := TemplateIdFromName(templates[1..], name);
      assert forall k :: 1 <= k < |templates| ==> templates[k] == templates[1..][k - 1];
      r
  }

  /** What `GET /nodes/{node_id}` reports about a node's console. */
  datatype NodeConsole = NodeConsole(consoleType: string, consoleHost: string, console: int)

  /** The console hosts that stand for "every interface of the server". */
  predicate IsWildcardHost(host: string)
  {
    host == "0.0.0.0" || host == "::"
  }

  /** The host choice of `get_node_telnet_host_port`: the node must have a telnet
      console; a wildcard console host is replaced by the server's address; the
      port is the node's console port. */
  function TelnetHostPort(serverAddr: string, node: NodeConsole): (r: Result<(string, int)>)
    ensures r.Err? <==> node.consoleType != "telnet"
    ensures r.Err? ==> r.error == AssertionError
    ensures r.Ok? ==> r.value.1 == node.console
    ensures r.Ok? ==> r.value.0 == serverAddr || r.value.0 == node.consoleHost
    ensures r.Ok? && IsWildcardHost(node.consoleHost) ==> r.value.0 == serverAddr
    ensures r.Ok? && !IsWildcardHost(node.consoleHost) ==> r.value.0 == node.consoleHost
    ensures r.Ok? && !IsWildcardHost(serverAddr) ==> !IsWildcardHost(r.value.0)
  {
    if node.consoleType != "telnet" then Err(AssertionError)
    else if IsWildcardHost(node.consoleHost) then Ok((serverAddr, node.console))
    else Ok((node.consoleHost, node.console))
  }

  /** A node name and identifier (`Item`). */
  datatype Item = Item(name: string, id: string)

  /** A link: its identifier and the node identifiers of its two ends. */
  datatype LinkInfo = LinkInfo(linkId: string, ends: seq<string>)

  /** The inner loop of `is_link_relevant`: the first relevant node that is `end`. */
  function RelevantNodeAt(end: string, relevant: seq<Item>): (r: Option<Item>)
    ensures r.Some? ==> r.value in relevant && r.value.id == end
    ensures r.Some? ==> exists k :: && 0 <= k < |relevant| && r.value == relevant[k]
                                    && forall j :: 0 <= j < k ==> relevant[j].id != end
    ensures r.None? <==> forall k :: 0 <= k < |relevant| ==> relevant[k].id != end
    decreases |relevant|
  {
    if |relevant| == 0 then None
    else if relevant[0].id == end then Some(relevant[0])
    else
      var r := RelevantNodeAt(end, relevant[1..]);
      assert forall k :: 1 <= k < |relevant| ==> relevant[k] == relevant[1..][k - 1];
      assert r.Some? ==> exists k :: && 0 <= k < |relevant| && r.value == relevant[k]
                                     && forall j :: 0 <= j < k ==> relevant[j].id != end by {
        if r.Some? {
          var k :| && 0 <= k < |relevant[1..]| && r.value == relevant[1..][k]
                   && forall j :: 0 <= j < k ==> relevant[1..][j].id != end;
          assert forall j :: 0 <= j < k + 1 ==> relevant[j].id != end by {
            forall j | 0 <= j < k + 1 ensures relevant[j].id != end {
              if j > 0 { assert relevant[j] == relevant[1..][j - 1]; }
            }
          }
        }
      }
      r
  }

  /** `is_link_relevant`: a relevant node at one of the link's ends, the ends
      taken in order; None exactly when no end is a relevant node. */
  function LinkedNode(ends: seq<string>, relevant: seq<Item>): (r: Option<Item>)
    ensures r.Some? ==> r.value in relevant && r.value.id in ends
    ensures r.Some? ==> exists i :: && 0 <= i < |ends| && r == RelevantNodeAt(ends[i], relevant)
                                    && forall j :: 0 <= j < i ==> RelevantNodeAt(ends[j], relevant).None?
    ensures r.None? <==> forall e, k :: e in ends && 0 <= k < |relevant| ==> relevant[k].id != e
    decreases |ends|
  {
    if |ends| == 0 then None
    else match RelevantNodeAt(ends[0], relevant)
      case Some(n) => Some(n)
      case None =>
        var r := LinkedNode(ends[1..], relevant);
        assert forall e :: e in ends ==> e == ends[0] || e in ends[1..];
        assert r.Some? ==> exists i :: && 0 <= i < |ends| && r == RelevantNodeAt(ends[i], relevant)
                                       && forall j :: 0 <= j < i ==> RelevantNodeAt(ends[j], relevant).None? by {
          if r.Some? {
            var i :| && 0 <= i < |ends[1..]| && r == RelevantNodeAt(ends[1..][i], relevant)
                     && forall j :: 0 <= j < i ==> RelevantNodeAt(ends[1..][j], relevant).None?;
            assert ends[i + 1] == ends[1..][i];
            forall j | 0 <= j < i + 1 ensures RelevantNodeAt(ends[j], relevant).None? {
              if j > 0 { assert ends[j] == ends[1..][j - 1]; }
            }
          }
        }
        r
  }

  /** The entry for a link to a relevant node, as the filter loop builds it. */
  function LinkEntry(n: Item, nodeName: string, link: LinkInfo): Item
  {
    Item(n.name + " <--> " + nodeName, link.linkId)
  }

  /** The links kept by the filter of
      `get_links_id_from_node_connected_to_name_regexp`, in order (the returned
      `Item` is a non-empty tuple, so every found node counts as true). */
  function FilteredLinks(links: seq<LinkInfo>, relevant: seq<Item>, nodeName: string): seq<Item>
    decreases |links|
  {
    if |links| == 0 then []
    else
      var last := links[|links| - 1];
      FilteredLinks(links[..|links| - 1], relevant, nodeName)
      + match LinkedNode(last.ends, relevant)
        case Some(n) => [LinkEntry(n, nodeName, last)]
        case None => []
  }

  /** The filter loop, building `links_filtered` one link at a time. */
  method FilterLinks(links: seq<LinkInfo>, relevant: seq<Item>, nodeName: string) returns (filtered: seq<Item>)
    ensures filtered == FilteredLinks(links, relevant, nodeName)
  {
    filtered := [];
    var i := 0;
    while i < |links|
      invariant 0 <= i <= |links|
      invariant filtered == FilteredLinks(links[..i], relevant, nodeName)
    {
      assert links[..i + 1][..i] == links[..i];
      var linked := LinkedNode(links[i].ends, relevant);
      if linked.Some? {
        filtered := filtered + [LinkEntry(linked.value, nodeName, links[i])];
      }
      i := i + 1;
    }
    assert links[..i] == links;
  }

  /** Every kept entry names a link of `links` with a relevant end (the order is
      the links' order, by the definition of `FilteredLinks`). */
  lemma {:induction false} FilteredLinksSound(links: seq<LinkInfo>, relevant: seq<Item>, nodeName: string)
    ensures |FilteredLinks(links, relevant, nodeName)| <= |links|
    ensures forall item :: item in FilteredLinks(links, relevant, nodeName) ==>
              exists j :: 0 <= j < |links| && LinkedNode(links[j].ends, relevant).Some?
                          && item == LinkEntry(LinkedNode(links[j].ends, relevant).value, nodeName, links[j])
    decreases |links|
  {
    if |links| > 0 {
      var init := links[..|links| - 1];
      FilteredLinksSound(init, relevant, nodeName);
      assert forall j :: 0 <= j < |init| ==> init[j] == links[j];
    }
  }

  /** Every link with a relevant end is kept. */
  lemma {:induction false} FilteredLinksComplete(links: seq<LinkInfo>, relevant: seq<Item>, nodeName: string, j: nat)
    requires j < |links| && LinkedNode(links[j].ends, relevant).Some?
    ensures LinkEntry(LinkedNode(links[j].ends, relevant).value, nodeName, links[j])
            in FilteredLinks(links, relevant, nodeName)
    decreases |links|
  {
    if j < |links| - 1 {
      var init := links[..|links| - 1];
      assert init[j] == links[j];
      FilteredLinksComplete(init, relevant, nodeName, j);
    }
  }

  /** The network settings every device of a cluster receives. */
  const ClusterNetmask := "255.255.0.0"
  const ClusterGateway := "192.168.0.1"

  /** The body that `set_node_network_interfaces` posts for a recorded call. */
  function InterfacesPayload(call: ApiCall): string
    requires call.SetInterfaces?
  {
    StaticInterfaceConfigFile(call.iface, Format(call.ip), call.netmask, call.gateway, call.nameserver)
  }

  /** The interface settings of the device with address `a`: the `/16` interface
      of `a` and no nameserver. */
  function DeviceInterfaces(node: nat, a: Address): ApiCall
  {
    SetInterfaces(node, "eth0", a, ClusterNetmask, ClusterGateway, None)
  }

  /** The file a cluster device receives: its own address, the cluster netmask,
      and the gateway as nameserver. */
  lemma DeviceInterfaceFile(node: nat, a: Address)
    ensures Split(InterfacesPayload(DeviceInterfaces(node, a)), '\n')
            == InterfaceLines("eth0", Format(a), ClusterNetmask, ClusterGateway, ClusterGateway) + [""]
  {
    FormatDigits(a);
    StaticInterfaceConfigLines("eth0", Format(a), ClusterNetmask, ClusterGateway, None);
  }

  /** The SVG that the label request posts: first and last address and the
      netmask, one per line. */
  function LabelSvg(call: ApiCall): string
    requires call.CreateLabel?
  {
    "<svg><text>" + Format(call.first) + "\n" + Format(call.last) + "\n" + call.netmask + "</text></svg>"
  }

  /** From request `base` on, device `k` received the interface settings for
      address `startIp + k`, for every `k < count`. */
  ghost predicate DevicesConfigured(calls: seq<ApiCall>, base: nat, nodes: seq<nat>, startIp: Address, count: nat)
  {
    && count <= |nodes|
    && |calls| >= base + count
    && startIp + count <= 0x1_0000_0000
    && forall k :: 0 <= k < count ==> calls[base + k] == DeviceInterfaces(nodes[k], startIp + k)
  }

  lemma ConfiguredStep(calls: seq<ApiCall>, base: nat, nodes: seq<nat>, startIp: Address, count: nat)
    requires DevicesConfigured(calls, base, nodes, startIp, count) && |calls| == base + count
    requires count < |nodes| && startIp + count < 0x1_0000_0000
    ensures DevicesConfigured(calls + [DeviceInterfaces(nodes[count], startIp + count)],
                              base, nodes, startIp, count + 1)
  {
    var c := calls + [DeviceInterfaces(nodes[count], startIp + count)];
    assert forall k :: 0 <= k < |calls| ==> c[k] == calls[k];
  }

  /** The configuration loop of `create_cluster_of_devices`: device `i` gets address
      `start_ip + i`; the first address past 255.255.255.255 stops the loop. */
  method ConfigureDevices(project: Project, nodes: seq<nat>, startIp: Address) returns (r: Result<()>)
    modifies project`calls
    ensures |project.calls| >= |old(project.calls)| && project.calls[..|old(project.calls)|] == old(project.calls)
    ensures r.Ok? <==> startIp + |nodes| <= 0x1_0000_0000
    ensures r.Err? ==> r.error.AddressValueError?
    ensures var count := if r.Ok? then |nodes| else 0x1_0000_0000 - startIp;
            |project.calls| == |old(project.calls)| + count
            && DevicesConfigured(project.calls, |old(project.calls)|, nodes, startIp, count)
  {
    var base := |project.calls|;
    var i := 0;
    while i < |nodes|
      invariant 0 <= i <= |nodes| && startIp + i <= 0x1_0000_0000
      invariant |project.calls| == base + i && project.calls[..base] == old(project.calls)
      invariant DevicesConfigured(project.calls, base, nodes, startIp, i)
    {
      var a := Offset(startIp, i);
      if a.Err? {
        return Err(a.error);
      }
      ghost var before := project.calls;
      project.SetNodeNetworkInterfaces(nodes[i], "eth0", a.value, ClusterNetmask, ClusterGateway, None);
      ConfiguredStep(before, base, nodes, startIp, i);
      PrefixKept(before, DeviceInterfaces(nodes[i], a.value), base);
      i := i + 1;
    }
    r := Ok(());
  }

  /** What `create_cluster_of_devices` returns: the switch, devices and links, and
      the corners `(Xi, Yi)` and `(Xf, Yf)` of the grid. */
  datatype Cluster = Cluster(grid: Grid, xi: int, yi: int)

  /** `create_cluster_of_devices`: a switch, `num` devices in rows of `perRow` below
      it, a link from each device to its own switch adapter, an interface file per
      device with consecutive addresses from `startIp`, and a label. */
  method CreateClusterOfDevices(project: Project, num: int, startX: int, startY: int, switchT: string,
                                deviceT: string, startIp: Address, perRow: int)
    returns (r: Result<Cluster>)
    modifies project`calls
    ensures |project.calls| >= |old(project.calls)| && project.calls[..|old(project.calls)|] == old(project.calls)
    ensures num >= 64 || num < 0 ==> r == Err(AssertionError)
    ensures 0 < num < 64 && perRow == 0 ==> r == Err(ZeroDivisionError)
    ensures 0 <= num < 64 && (num == 0 || perRow != 0) && !(0 <= startIp + num - 1 && startIp + num < 0x1_0000_0000) ==>
              r.Err? && r.error.AddressValueError?
    ensures r.Ok? <==> 0 <= num < 64 && (num == 0 || perRow != 0) && 0 <= startIp + num - 1 && startIp + num < 0x1_0000_0000
    ensures r.Ok? ==> ClusterBuilt(project.calls, |old(project.calls)|, Layout(startX, startY, project.gridUnit, perRow),
                                   num, switchT, deviceT, startIp, r.value)
  {
    var l := Layout(startX, startY, project.gridUnit, perRow);
    var base := |project.calls|;
    var grid := CreateGrid(project, num, l, switchT, deviceT);
    if grid.Err? {
      return Err(grid.error);
    }
    ghost var mid := project.calls;
    var configured := ConfigureDevices(project, grid.value.nodes, startIp);
    if configured.Err? {
      assert project.calls[..base] == mid[..base] by {
        assert project.calls[..base] == project.calls[..|mid|][..base];
      }
      return Err(configured.error);
    }
    // The label's `start_ip+num_devices-1` adds `num` first, then takes one away;
    // each step is an address that must stay in range.
    var past := Offset(startIp, num);
    var last := if past.Ok? then Offset(past.value, -1) else past;
    if last.Err? {
      assert project.calls[..base] == mid[..base] by {
        assert project.calls[..base] == project.calls[..|mid|][..base];
      }
      return Err(last.error);
    }
    ghost var configuredCalls := project.calls;
    project.DrawLabel(startX + (TruncHalf(perRow) + 2) * project.gridUnit, startY - project.gridUnit,
                      startIp, last.value, ClusterNetmask);
    r := Ok(Cluster(grid.value, startX, startY));
    ClusterAssembled(mid, configuredCalls, project.calls, base, l, num, switchT, deviceT, startIp, r.value);
  }

  /** The requests of a whole cluster after the `base` earlier ones: the grid, the
      interface settings of each device, and the label two units right of the
      switch. */
  ghost predicate ClusterBuilt(calls: seq<ApiCall>, base: nat, l: Layout, num: int, switchT: string,
                               deviceT: string, startIp: Address, c: Cluster)
  {
    && 0 <= num
    && |calls| == base + 2 + 3 * num
    && GridLaidOut(calls, base, l, num, switchT, deviceT, c.grid)
    && DevicesConfigured(calls, base + 1 + 2 * num, c.grid.nodes, startIp, num)
    && 0 <= startIp + num - 1 && startIp + num < 0x1_0000_0000
    && calls[base + 1 + 3 * num]
       == CreateLabel(l.startX + (TruncHalf(l.perRow) + 2) * l.unit, l.startY - l.unit,
                      startIp, startIp + num - 1, ClusterNetmask)
    && c.xi == l.startX && c.yi == l.startY
  }

  /** Appending the interface settings and the label keeps the grid and the
      settings in place. */
  lemma ClusterAssembled(mid: seq<ApiCall>, configured: seq<ApiCall>, calls: seq<ApiCall>, base: nat, l: Layout,
                         num: nat, switchT: string, deviceT: string, startIp: Address, c: Cluster)
    requires |mid| == base + 1 + 2 * num
    requires GridLaidOut(mid, base, l, num, switchT, deviceT, c.grid)
    requires |configured| == |mid| + num && configured[..|mid|] == mid
    requires DevicesConfigured(configured, |mid|, c.grid.nodes, startIp, num)
    requires 0 <= startIp + num - 1 && startIp + num < 0x1_0000_0000
    requires calls == configured + [CreateLabel(l.startX + (TruncHalf(l.perRow) + 2) * l.unit, l.startY - l.unit,
                                                startIp, startIp + num - 1, ClusterNetmask)]
    requires c.xi == l.startX && c.yi == l.startY
    ensures ClusterBuilt(calls, base, l, num, switchT, deviceT, startIp, c)
    ensures calls[..base] == mid[..base]
  {
    assert forall k :: 0 <= k < |configured| ==> calls[k] == configured[k];
    assert forall k :: 0 <= k < |mid| ==> configured[k] == mid[k];
    LaidOutExtends(mid, calls[|mid|..], base, l, num, switchT, deviceT, c.grid);
    assert mid + calls[|mid|..] == calls;
  }
}
