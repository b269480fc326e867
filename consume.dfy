/** The stream consumer container (`consume.py`): its settings with the
    environment override, the check that the stream server answers `ping`, and
    the loop that restarts `ffmpeg` until it exits with code 1. */
module StreamConsumer {
  import opened PyErrors
  import opened EnvConfig
  import opened Ping

  /** The settings and their defaults, all texts. */
  const SettingKeys: seq<string> := ["STREAM_SERVER_ADDR", "STREAM_SERVER_PORT", "STREAM_NAME", "ACTIVE_TIME",
                                     "INACTIVE_TIME"]
  const SettingDefaults: seq<Setting> := [Text("localhost"), Text("8554"), Text("mystream"), Text("60"), Text("100")]

  const NoPingExit := "No 'ping' binary found. Exiting."
  /** The f-string of the "down" exit has no placeholder, so the message names the
      setting rather than the address. */
  const DownExit := "config['STREAM_SERVER_ADDR'] is down"
  /** `proc.args[0]` is always `ffmpeg`. */
  const StreamErrorExit := "error in ffmpeg"

  /** The value a setting has once the environment is read: the environment's
      text when it defines the key, the default otherwise. This is the reading of
      one key of `Overridden` (see `EffectiveIsOverridden`). */
  function Effective(env: map<string, string>, key: string, default: string): (v: string)
    ensures key in env ==> v == env[key]
    ensures key !in env ==> v == default
  {
    if key in env then env[key] else default
  }

  /** A text setting of a dictionary, read after the override, is `Effective`. */
  lemma EffectiveIsOverridden(values: map<string, Setting>, env: map<string, string>, key: string, default: string)
    requires key in values && values[key] == Text(default)
    ensures key in Overridden(values, env)
    ensures Overridden(values, env)[key] == Text(Effective(env, key, default))
  {
  }

  /** `stream_cmd`: `ffmpeg` reading the RTSP stream of the server and discarding it. */
  function StreamCommand(addr: string, port: string, name: string): (cmd: seq<string>)
    ensures |cmd| == 6 && cmd[0] == "ffmpeg" && cmd[1] == "-i"
    ensures cmd[2] == "rtsp://" + addr + ":" + port + "/" + name
    ensures cmd[3..] == ["-f", "null", "/dev/null"]
  {
    ["ffmpeg", "-i", "rtsp://" + addr + ":" + port + "/" + name, "-f", "null", "/dev/null"]
  }

  /** The settings dictionary read from the environment, and the three settings
      the stream command is made of. */
  method ReadSettings(env: map<string, string>) returns (addr: string, port: string, name: string)
    ensures addr == Effective(env, "STREAM_SERVER_ADDR", "localhost")
    ensures port == Effective(env, "STREAM_SERVER_PORT", "8554")
    ensures name == Effective(env, "STREAM_NAME", "mystream")
  {
    var config := new Config(SettingKeys, SettingDefaults);
    assert config.values[SettingKeys[0]] == SettingDefaults[0];
    assert config.values[SettingKeys[1]] == SettingDefaults[1];
    assert config.values[SettingKeys[2]] == SettingDefaults[2];
    config.OverrideFromEnvironment(env);
    addr := config.values["STREAM_SERVER_ADDR"].text;
    port := config.values["STREAM_SERVER_PORT"].text;
    name := config.values["STREAM_NAME"].text;
  }

  /** The script up to the stream loop: read the settings, leave when there is no
      `ping` binary or when the server does not answer three pings, and build the
      stream command. `pingCodes(k)` is the exit code of the k-th ping. */
  method StartUp(env: map<string, string>, pingFound: bool, pingCodes: nat -> int) returns (r: Result<seq<string>>)
    ensures !pingFound ==> r == Err(SystemExit(NoPingExit))
    ensures pingFound && !SomeRunSucceeds(pingCodes, 3) ==> r == Err(SystemExit(DownExit))
    ensures r.Ok? <==> pingFound && SomeRunSucceeds(pingCodes, 3)
    ensures r.Ok? ==> r.value == StreamCommand(Effective(env, "STREAM_SERVER_ADDR", "localhost"),
                                               Effective(env, "STREAM_SERVER_PORT", "8554"),
                                               Effective(env, "STREAM_NAME", "mystream"))
  {
    var addr, port, name := ReadSettings(env);
    if !pingFound {
      return Err(SystemExit(NoPingExit));
    }
    var up, runs := Ping.Ping(pingCodes, 3);
    PingSucceedsIffSomeRun(pingCodes, 3);
    if !up.value {
      return Err(SystemExit(DownExit));
    }
    r := Ok(StreamCommand(addr, port, name));
  }

  /** The `while True` loop over its first `rounds` rounds: start `ffmpeg`, wait
      for it (or terminate it after the active time), leave the script when its
      exit code is 1, otherwise sleep and start it again. `exitCodes(k)` is the
      exit code of the k-th process; a terminated process has a negative code.
      `exit` is the message the script leaves with, None while it still runs. */
  method StreamLoop(exitCodes: nat -> int, rounds: nat) returns (exit: Option<PyError>, started: nat)
    ensures exit.Some? <==> exists k :: 0 <= k < rounds && exitCodes(k) == 1
    ensures exit.Some? ==> exit.value == SystemExit(StreamErrorExit)
                           && started == FirstRunWith(exitCodes, 1, rounds) + 1
                           && exitCodes(started - 1) == 1
    ensures exit.None? ==> started == rounds
    ensures forall k :: 0 <= k < started - 1 ==> exitCodes(k) != 1
  {
    started := 0;
    while started < rounds
      invariant started <= rounds
      invariant FirstRunWith(exitCodes, 1, started) == started
    {
      var code := exitCodes(started);
      started := started + 1;
      if code == 1 {
        return Some(SystemExit(StreamErrorExit)), started;
      }
    }
    exit := None;
  }
}
