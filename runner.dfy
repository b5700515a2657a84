/** `main` of runner.py: the checks on the mount directory, the key
    directory, the device listing and the two prompts, then the destructive
    session, the NixOS configuration and the unmount-and-remount test. The
    prompts' answers, and the owner and group of the mount directory, are
    parameters. */
module Runner {
  import opened Text
  import opened Names
  import opened Shell
  import opened Base
  import opened Partitions
  import opened Provision
  import opened Session
  import opened Nix
  import opened Remount

  /** The keyword arguments of `main`. */
  datatype RunnerConfig = RunnerConfig(
    factors: seq<real>,
    mountDir: string,
    keyDir: string,
    user: string,
    group: string,
    testRun: bool,
    names: seq<string>)

  /** The defaults of `main`'s keyword arguments. */
  const Defaults: RunnerConfig :=
    RunnerConfig([0.33, 0.33, 0.33], "/mnt/endoreg-sensitive-data", "./sensitive-hdd-keys",
                 "admin", "endoreg-service", false, ["dropoff", "processing", "processed"])

  /** The device a test run formats without asking. */
  const TestDevice: string := "/dev/sdb"

  /** How `main` ends without an exception: canceled at the confirmation,
      or with the device formatted, the records of its partitions and the
      configuration text. */
  datatype Outcome = Canceled | Provisioned(device: string, records: Records, nix: string)

  /** `str(Path(p))` as far as the runner's paths need it: leading `./`
      components are dropped. */
  function PathText(p: string): (r: string)
    ensures |r| <= |p| && r == p[|p| - |r|..]
    ensures |r| > 2 ==> r[..2] != "./"
  {
    if |p| > 2 && p[..2] == "./" then PathText(p[2..]) else p
  }

  /** The device `main` formats: the fixed test device in a test run,
      otherwise the stripped answer to the device prompt. */
  function ChosenDevice(testRun: bool, deviceAnswer: string): (device: string)
    ensures !testRun ==> device == Strip(deviceAnswer)
  {
    if testRun then TestDevice else Strip(deviceAnswer)
  }

  /** `main`: everything it does, in order, until the first exception. */
  function RunnerSpec(w: Oracle, e: Entropy, m: Machine, cfg: RunnerConfig,
                      owner: string, ownerGroup: string, deviceAnswer: string, confirmAnswer: string): Step<Outcome>
  {
    var mountDir := PathText(cfg.mountDir);
    var keyDir := PathText(cfg.keyDir);
    if mountDir !in m.dirs then Step(m, Err(FileNotFoundError(mountDir)))
    else if owner != cfg.user || ownerGroup != cfg.group then Step(m, Err(PermissionError(mountDir)))
    else ListedSpec(w, e, WithDir(m, keyDir), cfg, mountDir, keyDir,
                    ChosenDevice(cfg.testRun, deviceAnswer), Confirmed(confirmAnswer))
  }

  /** From the device listing on, with the key directory in place. */
  function ListedSpec(w: Oracle, e: Entropy, m: Machine, cfg: RunnerConfig, mountDir: string, keyDir: string,
                      device: string, confirmed: bool): Step<Outcome>
  {
    var listed := Exec(w, m, ListDisks);
    if listed.result.Err? then Step(listed.state, Err(listed.result.error))
    else if !confirmed then Step(listed.state, Ok(Canceled))
    else ConfirmedSpec(w, e, listed.state, cfg, mountDir, keyDir, device)
  }

  /** From the cleanup on, once the user confirmed: the session, the
      configuration text and the remount, combined by `Finish`. */
  function ConfirmedSpec(w: Oracle, e: Entropy, m: Machine, cfg: RunnerConfig, mountDir: string, keyDir: string,
                         device: string): Step<Outcome>
  {
    var prepared := PrepareSpec(w, e, m, device, cfg.names, cfg.factors, mountDir, keyDir);
    Finish(prepared, cfg.names, RemountSpec(w, prepared.state, device, mountDir, keyDir), device)
  }

  /** The end of `main` given the session's step and the remount that
      starts where the session stopped: the first exception of the session,
      the configuration and the remount, in that order, or the outcome. The
      remount only counts once the session and the configuration succeeded. */
  function Finish(prepared: Step<Records>, names: seq<string>, remounted: Step<()>, device: string): Step<Outcome>
  {
    if prepared.result.Err? then Step(prepared.state, Err(prepared.result.error))
    else
      var nix := NixText(prepared.result.value.infos, names);
      if nix.Err? then Step(prepared.state, Err(nix.error))
      else if remounted.result.Err? then Step(remounted.state, Err(remounted.result.error))
      else Step(remounted.state, Ok(Provisioned(device, prepared.result.value, nix.value)))
  }

  /** `Finish` succeeds only when all three succeeded, and then reports the
      session's records and the configuration text in the remount's state. */
  lemma FinishSteps(prepared: Step<Records>, names: seq<string>, remounted: Step<()>, device: string)
    ensures var s := Finish(prepared, names, remounted, device);
      s.result.Ok? ==>
        && prepared.result.Ok?
        && NixText(prepared.result.value.infos, names).Ok?
        && remounted.result.Ok?
        && s == Step(remounted.state, Ok(Provisioned(device, prepared.result.value,
                                                      NixText(prepared.result.value.infos, names).value)))
  {
  }

  /** `main`, step by step on the host. */
  method RunnerMain(h: Host, cfg: RunnerConfig, owner: string, ownerGroup: string,
                    deviceAnswer: string, confirmAnswer: string) returns (r: Result<Outcome>)
    modifies h
    ensures Step(h.State(), r) == RunnerSpec(h.answer, h.entropy, old(h.State()), cfg, owner, ownerGroup, deviceAnswer, confirmAnswer)
  {
    var mountDir := PathText(cfg.mountDir);
    var keyDir := PathText(cfg.keyDir);
    if mountDir !in h.dirs {
      return Err(FileNotFoundError(mountDir));
    }
    if owner != cfg.user || ownerGroup != cfg.group {
      return Err(PermissionError(mountDir));
    }
    h.MakeDirsIfAbsent(keyDir);
    var listed := ListDevices(h);
    if listed.Err? {
      return Err(listed.error);
    }
    var device := ChosenDevice(cfg.testRun, deviceAnswer);
    if !Confirmed(confirmAnswer) {
      return Ok(Canceled);
    }
    var prepared := Prepare(h, device, cfg.names, cfg.factors, mountDir, keyDir);
    if prepared.Err? {
      return Err(prepared.error);
    }
    var nix := WriteNixConfiguration(prepared.value.infos, cfg.names);
    if nix.Err? {
      return Err(nix.error);
    }
    var remounted := UnmountAndMountAll(h, device, mountDir, keyDir);
    if remounted.Err? {
      return Err(remounted.error);
    }
    return Ok(Provisioned(device, prepared.value, nix.value));
  }

  /** A leading `./` is dropped: the default key directory
      `./sensitive-hdd-keys` becomes `sensitive-hdd-keys`, and key files are
      named `sensitive-hdd-keys/key-<partition>.key`. */
  lemma PathTextDropsDot(rest: string)
    requires rest != [] && !(|rest| > 2 && rest[..2] == "./")
    ensures PathText("./" + rest) == rest
  {
    var p := "./" + rest;
    assert p[..2] == "./";
    assert p[2..] == rest;
  }

  /** A missing mount directory, and then a mount directory with another
      owner or group, raise before anything is created or issued; past the
      checks the key directory is in place before the listing. */
  lemma RunnerChecksFirst(w: Oracle, e: Entropy, m: Machine, cfg: RunnerConfig,
                          owner: string, ownerGroup: string, deviceAnswer: string, confirmAnswer: string)
    ensures var s := RunnerSpec(w, e, m, cfg, owner, ownerGroup, deviceAnswer, confirmAnswer);
      var mountDir := PathText(cfg.mountDir);
      && (mountDir !in m.dirs ==> s == Step(m, Err(FileNotFoundError(mountDir))))
      && (mountDir in m.dirs && (owner != cfg.user || ownerGroup != cfg.group) ==>
            s == Step(m, Err(PermissionError(mountDir))))
      && (mountDir in m.dirs && owner == cfg.user && ownerGroup == cfg.group ==>
            s == ListedSpec(w, e, WithDir(m, PathText(cfg.keyDir)), cfg, mountDir, PathText(cfg.keyDir),
                            ChosenDevice(cfg.testRun, deviceAnswer), Confirmed(confirmAnswer)))
  {
  }

  /** Without a confirmation the run stops right after the listing. With
      one, it goes on from the state after the listing. */
  lemma ListedSteps(w: Oracle, e: Entropy, m: Machine, cfg: RunnerConfig, mountDir: string, keyDir: string,
                    device: string, confirmed: bool)
    ensures var s := ListedSpec(w, e, m, cfg, mountDir, keyDir, device, confirmed);
      var listed := Exec(w, m, ListDisks);
      && listed.state.trace == m.trace + [ListDisks]
      && (listed.result.Ok? && !confirmed ==> s == Step(listed.state, Ok(Canceled)))
      && (listed.result.Ok? && confirmed ==> s == ConfirmedSpec(w, e, listed.state, cfg, mountDir, keyDir, device))
      && (listed.result.Err? ==> s.result.Err?)
  {
  }

  /** After the confirmation the run never reports a cancel: it raises or
      formats `device`. */
  lemma ConfirmedProvisions(w: Oracle, e: Entropy, m: Machine, cfg: RunnerConfig, mountDir: string, keyDir: string,
                            device: string)
    ensures var s := ConfirmedSpec(w, e, m, cfg, mountDir, keyDir, device);
      s.result.Ok? ==> s.result.value.Provisioned? && s.result.value.device == device
  {
    var prepared := PrepareSpec(w, e, m, device, cfg.names, cfg.factors, mountDir, keyDir);
    FinishSteps(prepared, cfg.names, RemountSpec(w, prepared.state, device, mountDir, keyDir), device);
  }

  /** A canceled run passed the checks and the listing, was not
      confirmed, and stopped in the state after the listing. */
  lemma CancelReaches(w: Oracle, e: Entropy, m: Machine, cfg: RunnerConfig,
                      owner: string, ownerGroup: string, deviceAnswer: string, confirmAnswer: string)
    ensures var s := RunnerSpec(w, e, m, cfg, owner, ownerGroup, deviceAnswer, confirmAnswer);
      var listed := Exec(w, WithDir(m, PathText(cfg.keyDir)), ListDisks);
      s.result == Ok(Canceled) ==>
        && !Confirmed(confirmAnswer)
        && listed.result.Ok?
        && s.state == listed.state
  {
    var mountDir := PathText(cfg.mountDir);
    var keyDir := PathText(cfg.keyDir);
    var device := ChosenDevice(cfg.testRun, deviceAnswer);
    var m1 := WithDir(m, keyDir);
    RunnerChecksFirst(w, e, m, cfg, owner, ownerGroup, deviceAnswer, confirmAnswer);
    ListedSteps(w, e, m1, cfg, mountDir, keyDir, device, Confirmed(confirmAnswer));
    ConfirmedProvisions(w, e, Exec(w, m1, ListDisks).state, cfg, mountDir, keyDir, device);
  }

  /** A canceled run was not confirmed: the confirmation, stripped and
      lower-cased, is not `yes`. It has created the key directory, issued
      the listing and changed nothing else. */
  lemma RunnerCancel(w: Oracle, e: Entropy, m: Machine, cfg: RunnerConfig,
                     owner: string, ownerGroup: string, deviceAnswer: string, confirmAnswer: string)
    ensures var s := RunnerSpec(w, e, m, cfg, owner, ownerGroup, deviceAnswer, confirmAnswer);
      s.result == Ok(Canceled) ==>
        && !Confirmed(confirmAnswer)
        && Issued(m, s.state) == [ListDisks]
        && s.state.dirs == m.dirs + {PathText(cfg.keyDir)}
        && s.state.mappings == m.mappings && s.state.mounts == m.mounts && s.state.keys == m.keys
  {
    var s := RunnerSpec(w, e, m, cfg, owner, ownerGroup, deviceAnswer, confirmAnswer);
    CancelReaches(w, e, m, cfg, owner, ownerGroup, deviceAnswer, confirmAnswer);
    if s.result == Ok(Canceled) {
      ListingOnly(w, m, PathText(cfg.keyDir));
    }
  }

  /** Creating the key directory and listing the disks issue the listing
      and change nothing but the directories. */
  lemma ListingOnly(w: Oracle, m: Machine, keyDir: string)
    ensures var l := Exec(w, WithDir(m, keyDir), ListDisks).state;
      && Issued(m, l) == [ListDisks]
      && l.dirs == m.dirs + {keyDir}
      && l.mappings == m.mappings && l.mounts == m.mounts && l.keys == m.keys
  {
    var m1 := WithDir(m, keyDir);
    assert m1.dirs == m.dirs + {keyDir};
  }

  /** A run that passed the checks and the listing is canceled when the
      confirmation is not `yes`. */
  lemma RunnerCancelWhen(w: Oracle, e: Entropy, m: Machine, cfg: RunnerConfig,
                         owner: string, ownerGroup: string, deviceAnswer: string, confirmAnswer: string)
    ensures var s := RunnerSpec(w, e, m, cfg, owner, ownerGroup, deviceAnswer, confirmAnswer);
      var listed := Exec(w, WithDir(m, PathText(cfg.keyDir)), ListDisks);
      (PathText(cfg.mountDir) in m.dirs && owner == cfg.user && ownerGroup == cfg.group
       && listed.result.Ok? && !Confirmed(confirmAnswer)) ==> s.result == Ok(Canceled)
  {
    var m1 := WithDir(m, PathText(cfg.keyDir));
    RunnerChecksFirst(w, e, m, cfg, owner, ownerGroup, deviceAnswer, confirmAnswer);
    ListedSteps(w, e, m1, cfg, PathText(cfg.mountDir), PathText(cfg.keyDir),
                ChosenDevice(cfg.testRun, deviceAnswer), Confirmed(confirmAnswer));
  }

  /** A provisioned run formatted the device the test flag or the answer
      named, and only after a `yes` and with the mount directory owned by
      the configured user and group. */
  lemma RunnerDevice(w: Oracle, e: Entropy, m: Machine, cfg: RunnerConfig,
                     owner: string, ownerGroup: string, deviceAnswer: string, confirmAnswer: string)
    ensures var s := RunnerSpec(w, e, m, cfg, owner, ownerGroup, deviceAnswer, confirmAnswer);
      s.result.Ok? && s.result.value.Provisioned? ==>
        && s.result.value.device == ChosenDevice(cfg.testRun, deviceAnswer)
        && Confirmed(confirmAnswer)
        && PathText(cfg.mountDir) in m.dirs && owner == cfg.user && ownerGroup == cfg.group
  {
    var mountDir := PathText(cfg.mountDir);
    var keyDir := PathText(cfg.keyDir);
    var device := ChosenDevice(cfg.testRun, deviceAnswer);
    var m1 := WithDir(m, keyDir);
    RunnerChecksFirst(w, e, m, cfg, owner, ownerGroup, deviceAnswer, confirmAnswer);
    ListedSteps(w, e, m1, cfg, mountDir, keyDir, device, Confirmed(confirmAnswer));
    ConfirmedProvisions(w, e, Exec(w, m1, ListDisks).state, cfg, mountDir, keyDir, device);
  }

  /** A provisioned run passed the checks, listed the disks and was
      confirmed, and its end is the confirmed part run from the state after
      the listing. */
  lemma RunnerReaches(w: Oracle, e: Entropy, m: Machine, cfg: RunnerConfig,
                      owner: string, ownerGroup: string, deviceAnswer: string, confirmAnswer: string)
    ensures var s := RunnerSpec(w, e, m, cfg, owner, ownerGroup, deviceAnswer, confirmAnswer);
      var l := Exec(w, WithDir(m, PathText(cfg.keyDir)), ListDisks).state;
      s.result.Ok? && s.result.value.Provisioned? ==>
        && l.trace == m.trace + [ListDisks]
        && s == ConfirmedSpec(w, e, l, cfg, PathText(cfg.mountDir), PathText(cfg.keyDir),
                              ChosenDevice(cfg.testRun, deviceAnswer))
  {
    var m1 := WithDir(m, PathText(cfg.keyDir));
    RunnerChecksFirst(w, e, m, cfg, owner, ownerGroup, deviceAnswer, confirmAnswer);
    ListedSteps(w, e, m1, cfg, PathText(cfg.mountDir), PathText(cfg.keyDir),
                ChosenDevice(cfg.testRun, deviceAnswer), Confirmed(confirmAnswer));
  }

  /** The configuration step cannot raise `IndexError` after a successful
      session: there are never more partitions than names. */
  lemma PrepareNixText(w: Oracle, e: Entropy, m: Machine, device: string, names: seq<string>, factors: seq<real>,
                       mountDir: string, keyDir: string)
    ensures var s := PrepareSpec(w, e, m, device, names, factors, mountDir, keyDir);
      s.result.Ok? ==> NixText(s.result.value.infos, names).Ok?
  {
    PrepareRecords(w, e, m, device, names, factors, mountDir, keyDir);
    var s := PrepareSpec(w, e, m, device, names, factors, mountDir, keyDir);
    if s.result.Ok? {
      NixTextFails(s.result.value.infos, names);
    }
  }

  /** After the confirmation: a provisioned run ran the session, then the
      remount; the records are the session's and the configuration text is
      built from them and the names. */
  lemma ConfirmedOrder(w: Oracle, e: Entropy, m: Machine, cfg: RunnerConfig, mountDir: string, keyDir: string,
                       device: string)
    ensures var s := ConfirmedSpec(w, e, m, cfg, mountDir, keyDir, device);
      var prepared := PrepareSpec(w, e, m, device, cfg.names, cfg.factors, mountDir, keyDir);
      s.result.Ok? ==>
        && prepared.result == Ok(s.result.value.records)
        && NixText(s.result.value.records.infos, cfg.names) == Ok(s.result.value.nix)
        && RemountSpec(w, prepared.state, device, mountDir, keyDir).state == s.state
        && RemountSpec(w, prepared.state, device, mountDir, keyDir).result.Ok?
        && m.trace <= prepared.state.trace <= s.state.trace
        && Issued(m, s.state) == Issued(m, prepared.state) + Issued(prepared.state, s.state)
  {
    var s := ConfirmedSpec(w, e, m, cfg, mountDir, keyDir, device);
    var prepared := PrepareSpec(w, e, m, device, cfg.names, cfg.factors, mountDir, keyDir);
    FinishSteps(prepared, cfg.names, RemountSpec(w, prepared.state, device, mountDir, keyDir), device);
    if s.result.Ok? {
      PrepareOrder(w, e, m, device, cfg.names, cfg.factors, mountDir, keyDir);
      RemountOrder(w, prepared.state, device, mountDir, keyDir);
      IssuedConcat(m, prepared.state, s.state);
    }
  }

  /** A provisioned run issued the listing, then the session's commands,
      then the remount's, and nothing else; the records are the session's
      and the configuration text is built from them and the names. */
  lemma RunnerOrder(w: Oracle, e: Entropy, m: Machine, cfg: RunnerConfig,
                    owner: string, ownerGroup: string, deviceAnswer: string, confirmAnswer: string)
    ensures var s := RunnerSpec(w, e, m, cfg, owner, ownerGroup, deviceAnswer, confirmAnswer);
      var mountDir := PathText(cfg.mountDir);
      var keyDir := PathText(cfg.keyDir);
      var device := ChosenDevice(cfg.testRun, deviceAnswer);
      var l := Exec(w, WithDir(m, keyDir), ListDisks).state;
      var prepared := PrepareSpec(w, e, l, device, cfg.names, cfg.factors, mountDir, keyDir);
      s.result.Ok? && s.result.value.Provisioned? ==>
        && prepared.result == Ok(s.result.value.records)
        && NixText(s.result.value.records.infos, cfg.names) == Ok(s.result.value.nix)
        && RemountSpec(w, prepared.state, device, mountDir, keyDir).state == s.state
        && RemountSpec(w, prepared.state, device, mountDir, keyDir).result.Ok?
        && m.trace <= prepared.state.trace <= s.state.trace
        && Issued(m, s.state) == [ListDisks] + (Issued(l, prepared.state) + Issued(prepared.state, s.state))
  {
    var s := RunnerSpec(w, e, m, cfg, owner, ownerGroup, deviceAnswer, confirmAnswer);
    var mountDir := PathText(cfg.mountDir);
    var keyDir := PathText(cfg.keyDir);
    var device := ChosenDevice(cfg.testRun, deviceAnswer);
    var l := Exec(w, WithDir(m, keyDir), ListDisks).state;
    RunnerReaches(w, e, m, cfg, owner, ownerGroup, deviceAnswer, confirmAnswer);
    if s.result.Ok? && s.result.value.Provisioned? {
      ConfirmedOrder(w, e, l, cfg, mountDir, keyDir, device);
      IssuedConcat(m, l, s.state);
      assert Issued(m, l) == [ListDisks];
    }
  }

  /** A provisioned run's records name the created partitions in order,
      each with its key file, and its configuration is the header, one
      block per partition named by the matching partition name, and the
      footer, joined by newlines. */
  lemma RunnerRecords(w: Oracle, e: Entropy, m: Machine, cfg: RunnerConfig,
                      owner: string, ownerGroup: string, deviceAnswer: string, confirmAnswer: string)
    ensures var s := RunnerSpec(w, e, m, cfg, owner, ownerGroup, deviceAnswer, confirmAnswer);
      var keyDir := PathText(cfg.keyDir);
      var n := Count(cfg.names, cfg.factors);
      s.result.Ok? && s.result.value.Provisioned? ==>
        var out := s.result.value;
        && |out.records.infos| == n
        && (forall k :: 0 <= k < n ==>
              && out.records.infos[k].partition == PartitionPath(out.device, k)
              && out.records.infos[k].encryptionKey == KeyFilePath(keyDir, PartitionPath(out.device, k)))
        && out.records == RecordsOf(out.records.infos)
        && n <= |cfg.names|
        && out.nix == JoinLines(NixLines(out.records.infos, cfg.names))
  {
    var s := RunnerSpec(w, e, m, cfg, owner, ownerGroup, deviceAnswer, confirmAnswer);
    var mountDir := PathText(cfg.mountDir);
    var keyDir := PathText(cfg.keyDir);
    var device := ChosenDevice(cfg.testRun, deviceAnswer);
    var l := Exec(w, WithDir(m, keyDir), ListDisks).state;
    RunnerReaches(w, e, m, cfg, owner, ownerGroup, deviceAnswer, confirmAnswer);
    if s.result.Ok? && s.result.value.Provisioned? {
      ConfirmedOrder(w, e, l, cfg, mountDir, keyDir, device);
      ConfirmedProvisions(w, e, l, cfg, mountDir, keyDir, device);
      var prepared := PrepareSpec(w, e, l, device, cfg.names, cfg.factors, mountDir, keyDir);
      PrepareRecords(w, e, l, device, cfg.names, cfg.factors, mountDir, keyDir);
      NixTextJoined(prepared.result.value.infos, cfg.names);
    }
  }
}
