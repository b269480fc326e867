/** The set-up of the CoAP cloud container (`coap_cloud.py`): its settings with
    the environment override, the expansion of `COAP_ADDR_LIST` into addresses
    with `iprange`, and the ping of every address before the telemetry starts. */
module CoapCloud {
  import opened PyErrors
  import opened PyStr
  import opened IPv4
  import opened EnvConfig
  import opened Ping

  /** The `count` consecutive addresses from `start` on. */
  function Consecutive(start: Address, count: nat): (r: seq<Address>)
    requires start + count <= 0x1_0000_0000
    ensures |r| == count
    ensures forall i :: 0 <= i < count ==> r[i] == start + i
  {
    seq(count, i requires 0 <= i < count => start + i)
  }

  /** `iprange(start_addr, end_addr)`: a single parsed address when there is no
      end (None or the empty text); otherwise every address from start to end,
      after the assertion that start is not above end. */
  function IpRangeOf(startAddr: string, endAddr: Option<string>): Result<seq<Address>>
  {
    var start := Parse(startAddr);
    if endAddr.None? || endAddr.value == "" then
      if start.Err? then Err(start.error) else Ok([start.value])
    else
      var end := Parse(endAddr.value);
      if start.Err? then Err(start.error)
      else if end.Err? then Err(end.error)
      else if start.value <= end.value then Ok(Consecutive(start.value, end.value - start.value + 1))
      else Err(AssertionError)
  }

  /** The loop of `iprange`, appending one address at a time. */
  method IpRange(startAddr: string, endAddr: Option<string>) returns (r: Result<seq<Address>>)
    ensures r == IpRangeOf(startAddr, endAddr)
  {
    if endAddr.None? || endAddr.value == "" {
      var a := Parse(startAddr);
      if a.Err? {
        return Err(a.error);
      }
      return Ok([a.value]);
    }
    var start := Parse(startAddr);
    if start.Err? {
      return Err(start.error);
    }
    var end := Parse(endAddr.value);
    if end.Err? {
      return Err(end.error);
    }
    if !(start.value <= end.value) {
      return Err(AssertionError);
    }
    var addresses := Ascending(start.value, end.value);
    r := Ok(addresses);
  }

  /** The `for` loop of `iprange`: every address from `start` to `end`, appended
      one at a time. */
  method Ascending(start: Address, end: Address) returns (addresses: seq<Address>)
    requires start <= end
    ensures addresses == Consecutive(start, end - start + 1)
  {
    addresses := [];
    var i: int := start;
    while i < end + 1
      invariant start <= i <= end + 1
      invariant addresses == Consecutive(start, i - start)
    {
      addresses := addresses + [i];
      i := i + 1;
    }
  }

  /** A range with both ends holds `end - start + 1` ascending consecutive
      addresses, from `start` to `end`; reversed ends fail the assertion. */
  lemma IpRangeBounds(startAddr: string, endAddr: string)
    requires endAddr != "" && Parse(startAddr).Ok? && Parse(endAddr).Ok?
    ensures var s, e := Parse(startAddr).value, Parse(endAddr).value;
            var r := IpRangeOf(startAddr, Some(endAddr));
            && (s > e ==> r == Err(AssertionError))
            && (s <= e ==> && r.Ok? && |r.value| == e - s + 1
                           && r.value[0] == s && r.value[|r.value| - 1] == e
                           && forall i :: 0 < i < |r.value| ==> r.value[i] == r.value[i - 1] + 1)
  {
  }

  /** Without an end, the range is the start address alone, and printing it gives
      back the text it was written as. */
  lemma IpRangeSingle(startAddr: string, endAddr: Option<string>)
    requires endAddr.None? || endAddr == Some("")
    requires Parse(startAddr).Ok?
    ensures IpRangeOf(startAddr, endAddr) == Ok([Parse(startAddr).value])
    ensures Format(IpRangeOf(startAddr, endAddr).value[0]) == startAddr
  {
    FormatParse(startAddr);
  }

  /** Every piece stripped of surrounding whitespace. */
  function StripAll(pieces: seq<string>): (r: seq<string>)
    ensures |r| == |pieces|
    ensures forall i :: 0 <= i < |r| ==> r[i] == Strip(pieces[i])
  {
    seq(|pieces|, i requires 0 <= i < |pieces| => Strip(pieces[i]))
  }

  /** One `;`-separated item: split at `-`, each part stripped, given to `iprange`;
      three or more parts are more arguments than `iprange` takes. */
  function ItemAddresses(item: string): Result<seq<Address>>
  {
    var parts := StripAll(Split(item, '-'));
    if |parts| == 1 then IpRangeOf(parts[0], None)
    else if |parts| == 2 then IpRangeOf(parts[0], Some(parts[1]))
    else Err(TypeError("iprange() takes from 1 to 2 positional arguments"))
  }

  /** The outcome of a sequence of expansions: the first failure, or all the
      addresses one after the other. */
  function Flatten(results: seq<Result<seq<Address>>>): Result<seq<Address>>
    decreases |results|
  {
    if |results| == 0 then Ok([])
    else
      var previous := Flatten(results[..|results| - 1]);
      if previous.Err? then previous
      else
        match results[|results| - 1]
        case Ok(a) => Ok(previous.value + a)
        case Err(e) => Err(e)
  }

  /** Flattening two runs of expansions one after the other: the addresses of the
      first followed by those of the second, or the first failure. */
  lemma {:induction false} FlattenAppend(a: seq<Result<seq<Address>>>, b: seq<Result<seq<Address>>>)
    ensures Flatten(a).Err? ==> Flatten(a + b) == Flatten(a)
    ensures Flatten(a).Ok? && Flatten(b).Ok? ==> Flatten(a + b) == Ok(Flatten(a).value + Flatten(b).value)
    ensures Flatten(a).Ok? && Flatten(b).Err? ==> Flatten(a + b) == Flatten(b)
    decreases |b|
  {
    if |b| == 0 {
      assert a + b == a;
      assert Flatten(a).Ok? ==> Flatten(a).value + [] == Flatten(a).value;
    } else {
      var b' := b[..|b| - 1];
      assert (a + b)[..|a + b| - 1] == a + b';
      assert (a + b)[|a + b| - 1] == b[|b| - 1];
      FlattenAppend(a, b');
      if Flatten(a).Ok? && Flatten(b).Ok? {
        var x, y, z := Flatten(a).value, Flatten(b').value, b[|b| - 1].value;
        assert x + y + z == x + (y + z);
      }
    }
  }

  /** One more successful expansion appends its addresses. */
  lemma FlattenStep(results: seq<Result<seq<Address>>>, i: nat)
    requires i < |results| && Flatten(results[..i]).Ok? && results[i].Ok?
    ensures Flatten(results[..i + 1]) == Ok(Flatten(results[..i]).value + results[i].value)
  {
    assert results[..i + 1][..i] == results[..i];
  }

  /** One more failed expansion fails the whole sequence with its error. */
  lemma FlattenFails(results: seq<Result<seq<Address>>>, i: nat)
    requires i < |results| && Flatten(results[..i]).Ok? && results[i].Err?
    ensures Flatten(results) == results[i]
  {
    assert results[..i + 1][..i] == results[..i];
    FlattenAppend(results[..i + 1], results[i + 1..]);
    assert results[..i + 1] + results[i + 1..] == results;
  }

  /** A successful flattening holds exactly the addresses of the expansions,
      every one of which succeeded. */
  lemma {:induction false} FlattenMembers(results: seq<Result<seq<Address>>>)
    requires Flatten(results).Ok?
    ensures forall i :: 0 <= i < |results| ==> results[i].Ok?
    ensures forall a :: a in Flatten(results).value <==> exists i :: 0 <= i < |results| && a in results[i].value
    decreases |results|
  {
    if |results| > 0 {
      var front := results[..|results| - 1];
      FlattenMembers(front);
      assert forall i :: 0 <= i < |front| ==> front[i] == results[i];
    }
  }

  /** A failed flattening carries the error of the first expansion that failed. */
  lemma {:induction false} FlattenFirstError(results: seq<Result<seq<Address>>>)
    requires Flatten(results).Err?
    ensures exists i :: && 0 <= i < |results| && results[i] == Flatten(results)
                        && forall j :: 0 <= j < i ==> results[j].Ok?
    decreases |results|
  {
    var front := results[..|results| - 1];
    assert forall i :: 0 <= i < |front| ==> front[i] == results[i];
    if Flatten(front).Err? {
      FlattenFirstError(front);
    } else {
      FlattenMembers(front);
    }
  }

  /** An item of the list expanded: an empty item contributes nothing. */
  function ItemOrNothing(item: string): Result<seq<Address>>
  {
    if item == "" then Ok([]) else ItemAddresses(item)
  }

  /** `expand` applied to every item, in order. */
  function Expansions(items: seq<string>, expand: string -> Result<seq<Address>>): (r: seq<Result<seq<Address>>>)
    ensures |r| == |items|
    ensures forall i :: 0 <= i < |items| ==> r[i] == expand(items[i])
  {
    seq(|items|, i requires 0 <= i < |items| => expand(items[i]))
  }

  /** The addresses of `COAP_ADDR_LIST`: the items split at `;` and stripped, each
      expanded in order. */
  function AddressesOf(list: string): Result<seq<Address>>
  {
    Flatten(Expansions(StripAll(Split(list, ';')), ItemOrNothing))
  }

  /** The loop that extends the address list item by item, leaving at the first
      item that fails. */
  method ExpandAll(items: seq<string>, expand: string -> Result<seq<Address>>) returns (r: Result<seq<Address>>)
    ensures r == Flatten(Expansions(items, expand))
  {
    ghost var results := Expansions(items, expand);
    var addresses: seq<Address> := [];
    var i := 0;
    while i < |items|
      invariant 0 <= i <= |items|
      invariant Flatten(results[..i]) == Ok(addresses)
    {
      var more := expand(items[i]);
      if more.Err? {
        FlattenFails(results, i);
        return Err(more.error);
      }
      FlattenStep(results, i);
      addresses := addresses + more.value;
      i := i + 1;
    }
    assert results[..i] == results;
    r := Ok(addresses);
  }

  /** The parsing of `COAP_ADDR_LIST` in the script's main block. */
  method AddressList(list: string) returns (r: Result<seq<Address>>)
    ensures r == AddressesOf(list)
  {
    var items := StripAll(Split(list, ';'));
    r := ExpandAll(items, ItemOrNothing);
  }

  /** The default settings of the container. */
  const SettingKeys: seq<string> := ["COAP_ADDR_LIST", "PSK", "SLEEP_TIME", "SLEEP_TIME_SD", "PING_SLEEP_TIME",
                                     "PING_SLEEP_TIME_SD", "ACTIVE_TIME", "INACTIVE_TIME"]
  const SettingDefaults: seq<Setting> := [Text(""), Text(""), Whole(1), Fraction(0.1), Whole(10), Fraction(0.1),
                                          Whole(30), Whole(10)]

  const EmptyListExit := "COAP_ADDR_LIST is empty. Exiting."
  const NoPingExit := "No 'ping' binary found. Exiting."
  const NoCoapClientExit := "No 'coap-client' binary found. Exiting."

  /** The message the set-up leaves with when `a` does not answer. */
  function DownMessage(a: Address): string
  {
    "[ set up ] " + Format(a) + " is down"
  }

  /** The ping of every address before the telemetry starts (three attempts
      each), leaving at the first address that is down. `pingCodes(a)` gives the
      exit codes of the pings of `a`. */
  method PingAll(addresses: seq<Address>, pingCodes: Address -> nat -> int) returns (r: Result<()>)
    ensures r.Ok? <==> forall a :: a in addresses ==> SomeRunSucceeds(pingCodes(a), 3)
    ensures r.Err? ==> exists k :: && 0 <= k < |addresses|
                                   && r == Err(SystemExit(DownMessage(addresses[k])))
                                   && !SomeRunSucceeds(pingCodes(addresses[k]), 3)
                                   && forall j :: 0 <= j < k ==> SomeRunSucceeds(pingCodes(addresses[j]), 3)
  {
    var i := 0;
    while i < |addresses|
      invariant 0 <= i <= |addresses|
      invariant forall k :: 0 <= k < i ==> SomeRunSucceeds(pingCodes(addresses[k]), 3)
    {
      var up, runs := Ping.Ping(pingCodes(addresses[i]), 3);
      PingSucceedsIffSomeRun(pingCodes(addresses[i]), 3);
      if !up.value {
        return Err(SystemExit(DownMessage(addresses[i])));
      }
      i := i + 1;
    }
    r := Ok(());
  }

  /** The set-up in the script's main block: read the settings, leave when
      `COAP_ADDR_LIST` is empty, expand it, check that `ping` and `coap-client`
      exist, and ping every address. */
  method SetUp(env: map<string, string>, pingFound: bool, coapFound: bool, pingCodes: Address -> nat -> int)
    returns (r: Result<seq<Address>>)
    ensures "COAP_ADDR_LIST" !in env || env["COAP_ADDR_LIST"] == "" ==> r == Err(SystemExit(EmptyListExit))
    ensures r.Ok? ==> && "COAP_ADDR_LIST" in env
                      && AddressesOf(env["COAP_ADDR_LIST"]) == r
                      && pingFound && coapFound
                      && forall a :: a in r.value ==> SomeRunSucceeds(pingCodes(a), 3)
    ensures "COAP_ADDR_LIST" in env && env["COAP_ADDR_LIST"] != "" && AddressesOf(env["COAP_ADDR_LIST"]).Err? ==>
              r == AddressesOf(env["COAP_ADDR_LIST"])
    ensures "COAP_ADDR_LIST" in env && env["COAP_ADDR_LIST"] != "" && AddressesOf(env["COAP_ADDR_LIST"]).Ok? ==>
              (!pingFound ==> r == Err(SystemExit(NoPingExit))) &&
              (pingFound && !coapFound ==> r == Err(SystemExit(NoCoapClientExit)))
    ensures "COAP_ADDR_LIST" in env && env["COAP_ADDR_LIST"] != "" && AddressesOf(env["COAP_ADDR_LIST"]).Ok?
            && pingFound && coapFound ==>
              var addresses := AddressesOf(env["COAP_ADDR_LIST"]).value;
              && (r.Ok? <==> forall a :: a in addresses ==> SomeRunSucceeds(pingCodes(a), 3))
              && (r.Err? ==> exists k :: && 0 <= k < |addresses|
                                         && r == Err(SystemExit(DownMessage(addresses[k])))
                                         && !SomeRunSucceeds(pingCodes(addresses[k]), 3)
                                         && forall j :: 0 <= j < k ==> SomeRunSucceeds(pingCodes(addresses[j]), 3))
  {
    var config := new Config(SettingKeys, SettingDefaults);
    config.OverrideFromEnvironment(env);
    assert config.values["COAP_ADDR_LIST"] == if "COAP_ADDR_LIST" in env then Text(env["COAP_ADDR_LIST"]) else Text("");
    if !Truthy(config.values["COAP_ADDR_LIST"]) {
      return Err(SystemExit(EmptyListExit));
    }
    var addresses :- AddressList(config.values["COAP_ADDR_LIST"].text);
    if !pingFound {
      return Err(SystemExit(NoPingExit));
    }
    if !coapFound {
      return Err(SystemExit(NoCoapClientExit));
    }
    var up := PingAll(addresses, pingCodes);
    if up.Err? {
      return Err(up.error);
    }
    r := Ok(addresses);
  }
}
