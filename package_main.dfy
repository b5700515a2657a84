/** `main` of endoreg_usb_encrypter/main.py: the device listing, the
    prompts for the device, the partition names, the size percentages, the
    mount directory, the key directory and the confirmation, then the
    destructive session and the unmount-and-remount test. The prompts'
    answers are parameters. */
module PackageMain {
  import opened Text
  import opened Names
  import opened Shell
  import opened Partitions
  import opened Provision
  import opened Session
  import opened Remount
  import Base

  /** The keyword arguments of `main` that the run depends on. */
  datatype MainConfig = MainConfig(defaultFactors: seq<real>, defaultMountDir: string, defaultKeyDir: string)

  /** The defaults of those keyword arguments. */
  const Defaults: MainConfig := MainConfig([0.33, 0.33, 0.33], "/mnt/sensitive-hdd-mount", "./sensitive-hdd-keys")

  /** The partition names used when the answer does not have three fields. */
  const DefaultNames: seq<string> := ["dropoff", "pseudo", "processed"]

  /** How `main` ends without an exception: canceled at the confirmation,
      or with the device formatted and the records of its partitions. */
  datatype Ending = Canceled | Formatted(device: string, records: Records)

  // ---------------------------------------------------------------------
  // partition names

  /** The partition names from the answer: split on commas; three fields
      are stripped one by one, any other count gives the default names. */
  function PartitionNames(answer: string): (names: seq<string>)
    ensures |names| == 3
  {
    var parts := Split(Strip(answer), ',');
    if |parts| != 3 then DefaultNames else [Strip(parts[0]), Strip(parts[1]), Strip(parts[2])]
  }

  /** The stripped text is a piece of the text, so it holds no character
      the text does not. */
  lemma StripWithout(s: string, c: char)
    requires c !in s
    ensures c !in Strip(s)
  {
    var r := Strip(s);
    var i := Leading(s);
    assert forall k :: 0 <= k < |r| ==> r[k] == s[i + k];
  }

  /** An answer without a comma gives the default names. */
  lemma NamesFallback(answer: string)
    requires ',' !in answer
    ensures PartitionNames(answer) == DefaultNames
  {
    var t := Strip(answer);
    StripWithout(answer, ',');
    assert Find(t, ',') == |t|;
  }

  /** Three comma-free names, none empty and none with surrounding
      whitespace, joined by commas read back as themselves. */
  lemma NamesRoundTrip(a: string, b: string, c: string)
    requires a != [] && b != [] && c != []
    requires ',' !in a && ',' !in b && ',' !in c
    requires Strip(a) == a && Strip(b) == b && Strip(c) == c
    ensures PartitionNames(Join([a, b, c], ',')) == [a, b, c]
  {
    var s := Join([a, b, c], ',');
    assert [a, b, c][1..] == [b, c];
    assert Join([b, c], ',') == b + [','] + c by {
      assert [b, c][1..] == [c];
    }
    assert s == a + [','] + (b + [','] + c);
    assert s[0] == a[0] && s[|s| - 1] == c[|c| - 1];
    StripUnchanged(s);
    SplitJoin([a, b, c], ',');
  }

  // ---------------------------------------------------------------------
  // size percentages

  function Pow10(n: nat): (p: nat)
    ensures p >= 1
  {
    if n == 0 then 1 else 10 * Pow10(n - 1)
  }

  /** `float(s)` for decimal text: surrounding whitespace, then a number
      as `ReadNumber` reads it. Anything else raises `ValueError`. */
  function ParseFloat(s: string): (r: Result<real>)
    ensures r.Err? ==> r.error == ValueError(s)
  {
    var n := ReadNumber(Strip(s));
    if n.Err? then Err(ValueError(s)) else n
  }

  /** A number without surrounding whitespace: an optional sign, then
      digits with at most one point and at least one digit. */
  function ReadNumber(t: string): (r: Result<real>)
    ensures r.Err? ==> r.error == ValueError(t)
  {
    var signed := t != [] && (t[0] == '-' || t[0] == '+');
    var body := if signed then t[1..] else t;
    var i := Find(body, '.');
    var whole := body[..i];
    var frac := if i < |body| then body[i + 1..] else [];
    if |whole| + |frac| == 0 || !AllDigits(whole) || !AllDigits(frac) then Err(ValueError(t))
    else
      var v := ParseDigits(whole) as real + ParseDigits(frac) as real / Pow10(|frac|) as real;
      Ok(if signed && t[0] == '-' then -v else v)
  }

  /** Unsigned digits without a point read as their value. */
  lemma ReadDigits(t: string)
    requires t != [] && AllDigits(t)
    ensures ReadNumber(t) == Ok(ParseDigits(t) as real)
  {
    assert !IsDigit('.') && !IsDigit('-') && !IsDigit('+');
    assert t[0] != '-' && t[0] != '+';
    assert '.' !in t;
    assert Find(t, '.') == |t|;
    assert t[..|t|] == t;
  }

  /** A whole number written in decimal reads back as itself. */
  lemma ParseFloatDecimal(n: nat)
    ensures ParseFloat(Decimal(n)) == Ok(n as real)
  {
    var s := Decimal(n);
    DecimalPlain(n);
    StripUnchanged(s);
    ReadDigits(s);
    ParseDecimal(n);
  }

  /** A decimal rendering has no whitespace, sign, point or comma. */
  lemma DecimalPlain(n: nat)
    ensures var s := Decimal(n);
      && !IsSpace(s[0]) && !IsSpace(s[|s| - 1])
      && s[0] != '-' && s[0] != '+'
      && '.' !in s && ',' !in s
  {
    var s := Decimal(n);
    assert forall k :: 0 <= k < |s| ==> IsDigit(s[k]);
  }

  /** Blank text is not a number. */
  lemma ParseFloatBlank(s: string)
    requires AllSpace(s)
    ensures ParseFloat(s) == Err(ValueError(s))
  {
    StripBlank(s);
    assert ReadNumber([]).Err?;
  }

  /** Stripping blank text leaves nothing. */
  lemma StripBlank(s: string)
    requires AllSpace(s)
    ensures Strip(s) == []
  {
    assert Leading(s) == |s|;
  }

  /** The list comprehension over the comma-separated fields: each field
      read by `parse` and divided by 100, the first field `parse` rejects
      raising its error. */
  function ParseEach(parse: string -> Result<real>, parts: seq<string>): (r: Result<seq<real>>)
    ensures r.Ok? ==>
      && |r.value| == |parts|
      && forall k :: 0 <= k < |parts| ==> parse(parts[k]) == Ok(100.0 * r.value[k])
    ensures r.Err? ==> exists k :: 0 <= k < |parts| && parse(parts[k]) == Err(r.error)
  {
    if parts == [] then Ok([])
    else
      var x := parse(parts[0]);
      if x.Err? then Err(x.error)
      else
        var rest := ParseEach(parse, parts[1..]);
        if rest.Err? then
          var k :| 0 <= k < |parts[1..]| && parse(parts[1..][k]) == Err(rest.error);
          assert parse(parts[k + 1]) == Err(rest.error);
          Err(rest.error)
        else
          var r := [x.value / 100.0] + rest.value;
          assert forall k :: 1 <= k < |parts| ==> parts[k] == parts[1..][k - 1] && r[k] == rest.value[k - 1];
          Ok(r)
  }

  /** When `parse` reads every field as 100 times the matching value, the
      comprehension gives those values. */
  lemma {:induction false} ParseEachOk(parse: string -> Result<real>, parts: seq<string>, values: seq<real>)
    requires |values| == |parts|
    requires forall k :: 0 <= k < |parts| ==> parse(parts[k]) == Ok(100.0 * values[k])
    ensures ParseEach(parse, parts) == Ok(values)
  {
    if parts != [] {
      var x := parse(parts[0]);
      assert x == Ok(100.0 * values[0]);
      assert x.value / 100.0 == values[0];
      ParseEachOk(parse, parts[1..], values[1..]);
      assert values == [values[0]] + values[1..];
    }
  }

  /** The size factors from the answer: a blank answer gives the defaults;
      otherwise every comma-separated field must be a number, and unless
      there are three that add up to 1 the defaults are used. */
  function SizeFactors(answer: string, defaults: seq<real>): (r: Result<seq<real>>)
    ensures r.Ok? ==> r.value == defaults || (|r.value| == 3 && Sum(r.value) == 1.0)
    ensures r.Err? ==> r.error.ValueError?
  {
    var t := Strip(answer);
    if t == [] then Ok(defaults)
    else
      var factors := ParseEach(ParseFloat, Split(t, ','));
      if factors.Err? then Err(factors.error)
      else if |factors.value| != 3 || Sum(factors.value) != 1.0 then Ok(defaults)
      else Ok(factors.value)
  }

  /** A blank answer gives the defaults. */
  lemma SizeBlank(answer: string, defaults: seq<real>)
    requires AllSpace(answer)
    ensures SizeFactors(answer, defaults) == Ok(defaults)
  {
    StripBlank(answer);
  }

  /** Three whole percentages written in decimal and joined by commas: the
      factors are the percentages over 100 when they add up to 100, and the
      defaults otherwise. */
  lemma SizeRoundTrip(p: nat, q: nat, r: nat, defaults: seq<real>)
    ensures var factors := SizeFactors(Join([Decimal(p), Decimal(q), Decimal(r)], ','), defaults);
      && (p + q + r == 100 ==> factors == Ok([p as real / 100.0, q as real / 100.0, r as real / 100.0]))
      && (p + q + r != 100 ==> factors == Ok(defaults))
  {
    var parts := [Decimal(p), Decimal(q), Decimal(r)];
    var s := Join(parts, ',');
    JoinedFields(p, q, r);
    FractionsDecimal(p, q, r);
    SizeFactorsOfThree(s, defaults, p, q, r);
  }

  /** Three percentages over 100 add up to 1 exactly when they add up to 100. */
  lemma PercentSum(p: nat, q: nat, r: nat)
    ensures Sum([p as real / 100.0, q as real / 100.0, r as real / 100.0]) == 1.0 <==> p + q + r == 100
  {
    SumThree(p as real / 100.0, q as real / 100.0, r as real / 100.0);
    assert p as real / 100.0 + q as real / 100.0 + r as real / 100.0 == (p + q + r) as real / 100.0;
  }

  lemma SumThree(a: real, b: real, c: real)
    ensures Sum([a, b, c]) == a + b + c
  {
    assert [a, b, c][..2] == [a, b];
    assert [a, b][..1] == [a];
    assert [a][..0] == [];
    assert Sum([a]) == a;
    assert Sum([a, b]) == a + b;
  }

  /** A non-blank answer whose three fields read as the percentages `p`,
      `q` and `r` over 100 gives those fractions when the percentages add
      up to 100, and the defaults otherwise. */
  lemma SizeFactorsOfThree(answer: string, defaults: seq<real>, p: nat, q: nat, r: nat)
    requires Strip(answer) != []
    requires ParseEach(ParseFloat, Split(Strip(answer), ',')) == Ok([p as real / 100.0, q as real / 100.0, r as real / 100.0])
    ensures SizeFactors(answer, defaults)
         == if p + q + r == 100 then Ok([p as real / 100.0, q as real / 100.0, r as real / 100.0]) else Ok(defaults)
  {
    var f := [p as real / 100.0, q as real / 100.0, r as real / 100.0];
    assert SizeFactors(answer, defaults) == if Sum(f) != 1.0 then Ok(defaults) else Ok(f);
    PercentSum(p, q, r);
  }

  /** Three decimals joined by commas are their own strip and split back
      into the three. */
  lemma JoinedFields(p: nat, q: nat, r: nat)
    ensures var parts := [Decimal(p), Decimal(q), Decimal(r)];
      var s := Join(parts, ',');
      Strip(s) == s && s != [] && Split(s, ',') == parts
  {
    DecimalPlain(p);
    DecimalPlain(q);
    DecimalPlain(r);
    assert Decimal(p) != [];
    assert Decimal(r) != [];
    assert ',' !in Decimal(p);
    assert ',' !in Decimal(q);
    assert ',' !in Decimal(r);
    assert !IsSpace(Decimal(p)[0]);
    assert !IsSpace(Decimal(r)[|Decimal(r)| - 1]);
    JoinedThree(Decimal(p), Decimal(q), Decimal(r));
  }

  /** Three comma-free fields, the first not starting and the last not
      ending with whitespace, joined by commas are their own strip and
      split back into the three. */
  lemma JoinedThree(a: string, b: string, c: string)
    requires a != [] && c != []
    requires ',' !in a && ',' !in b && ',' !in c
    requires !IsSpace(a[0]) && !IsSpace(c[|c| - 1])
    ensures var s := Join([a, b, c], ',');
      Strip(s) == s && s != [] && Split(s, ',') == [a, b, c]
  {
    var s := Join([a, b, c], ',');
    assert [a, b, c][1..] == [b, c];
    assert Join([b, c], ',') == b + [','] + c by {
      assert [b, c][1..] == [c];
    }
    assert s == a + [','] + (b + [','] + c);
    assert s[0] == a[0] && s[|s| - 1] == c[|c| - 1];
    StripUnchanged(s);
    SplitJoin([a, b, c], ',');
  }

  /** `ParseEachOk` for three fields. */
  lemma ParseEachThree(parse: string -> Result<real>, a: string, b: string, c: string, x: real, y: real, z: real)
    requires parse(a) == Ok(100.0 * x) && parse(b) == Ok(100.0 * y) && parse(c) == Ok(100.0 * z)
    ensures ParseEach(parse, [a, b, c]) == Ok([x, y, z])
  {
    ParseEachOk(parse, [a, b, c], [x, y, z]);
  }

  /** `ParseEachOk` for three fields read as whole numbers. */
  lemma ParseEachWhole(parse: string -> Result<real>, a: string, b: string, c: string, p: nat, q: nat, r: nat)
    requires parse(a) == Ok(p as real) && parse(b) == Ok(q as real) && parse(c) == Ok(r as real)
    ensures ParseEach(parse, [a, b, c]) == Ok([p as real / 100.0, q as real / 100.0, r as real / 100.0])
  {
    assert 100.0 * (p as real / 100.0) == p as real;
    assert 100.0 * (q as real / 100.0) == q as real;
    assert 100.0 * (r as real / 100.0) == r as real;
    ParseEachThree(parse, a, b, c, p as real / 100.0, q as real / 100.0, r as real / 100.0);
  }

  /** Three decimals read as the percentages they write. */
  lemma FractionsDecimal(p: nat, q: nat, r: nat)
    ensures ParseEach(ParseFloat, [Decimal(p), Decimal(q), Decimal(r)])
         == Ok([p as real / 100.0, q as real / 100.0, r as real / 100.0])
  {
    ParseFloatDecimal(p);
    ParseFloatDecimal(q);
    ParseFloatDecimal(r);
    ParseEachWhole(ParseFloat, Decimal(p), Decimal(q), Decimal(r), p, q, r);
  }

  /** An answer with a blank field, such as `33,,67`, raises `ValueError`. */
  lemma SizeBlankField(answer: string, defaults: seq<real>, k: nat)
    requires Strip(answer) != []
    requires k < |Split(Strip(answer), ',')| && AllSpace(Split(Strip(answer), ',')[k])
    ensures SizeFactors(answer, defaults).Err?
  {
    var parts := Split(Strip(answer), ',');
    ParseFloatBlank(parts[k]);
  }

  // ---------------------------------------------------------------------
  // the run

  /** The directory named by an answer: the stripped answer, or the default
      when it is blank. */
  function ChosenDir(answer: string, default: string): (dir: string)
    ensures Strip(answer) != [] ==> dir == Strip(answer)
    ensures Strip(answer) == [] ==> dir == default
  {
    if Strip(answer) == [] then default else Strip(answer)
  }

  /** The state once the directories are in place: the default mount
      directory created if it is chosen and absent, then the key directory
      created if absent. */
  function DirsReady(m: Machine, cfg: MainConfig, mountAnswer: string, keyAnswer: string): Machine
  {
    var m1 := if Strip(mountAnswer) == [] then WithDir(m, cfg.defaultMountDir) else m;
    WithDir(m1, ChosenDir(keyAnswer, cfg.defaultKeyDir))
  }

  /** `main`: everything it does, in order, until the first exception. */
  function MainSpec(w: Oracle, e: Entropy, m: Machine, cfg: MainConfig, deviceAnswer: string, namesAnswer: string,
                    sizeAnswer: string, mountAnswer: string, keyAnswer: string, confirmAnswer: string): Step<Ending>
  {
    var listed := Exec(w, m, ListDisks);
    if listed.result.Err? then Step(listed.state, Err(listed.result.error))
    else
      var factors := SizeFactors(sizeAnswer, cfg.defaultFactors);
      if factors.Err? then Step(listed.state, Err(factors.error))
      else SetupSpec(w, e, listed.state, cfg, Strip(deviceAnswer), PartitionNames(namesAnswer), factors.value,
                     mountAnswer, keyAnswer, Confirmed(confirmAnswer))
  }

  /** From the mount directory on: `chown` of a mount directory the user
      named but that does not exist raises `FileNotFoundError`; then the key
      directory and the confirmation. */
  function SetupSpec(w: Oracle, e: Entropy, m: Machine, cfg: MainConfig, device: string, names: seq<string>,
                     factors: seq<real>, mountAnswer: string, keyAnswer: string, confirmed: bool): Step<Ending>
  {
    var mountDir := ChosenDir(mountAnswer, cfg.defaultMountDir);
    if Strip(mountAnswer) != [] && mountDir !in m.dirs then Step(m, Err(FileNotFoundError(mountDir)))
    else
      var ready := DirsReady(m, cfg, mountAnswer, keyAnswer);
      if !confirmed then Step(ready, Ok(Canceled))
      else ProceedSpec(w, e, ready, device, names, factors, mountDir, ChosenDir(keyAnswer, cfg.defaultKeyDir))
  }

  /** From the cleanup on, once the user confirmed: the session, then the
      remount from where the session stopped, combined by `Conclude`. */
  function ProceedSpec(w: Oracle, e: Entropy, m: Machine, device: string, names: seq<string>, factors: seq<real>,
                       mountDir: string, keyDir: string): Step<Ending>
  {
    var prepared := PrepareSpec(w, e, m, device, names, factors, mountDir, keyDir);
    Conclude(prepared, RemountSpec(w, prepared.state, device, mountDir, keyDir), device)
  }

  /** The session's exception, or else the remount's, or else the outcome;
      the remount only counts once the session succeeded. */
  function Conclude(prepared: Step<Records>, remounted: Step<()>, device: string): Step<Ending>
  {
    if prepared.result.Err? then Step(prepared.state, Err(prepared.result.error))
    else if remounted.result.Err? then Step(remounted.state, Err(remounted.result.error))
    else Step(remounted.state, Ok(Formatted(device, prepared.result.value)))
  }

  /** `main`, step by step on the host. */
  method MainRun(h: Host, cfg: MainConfig, deviceAnswer: string, namesAnswer: string, sizeAnswer: string,
                 mountAnswer: string, keyAnswer: string, confirmAnswer: string) returns (r: Result<Ending>)
    modifies h
    ensures Step(h.State(), r) == MainSpec(h.answer, h.entropy, old(h.State()), cfg, deviceAnswer, namesAnswer,
                                           sizeAnswer, mountAnswer, keyAnswer, confirmAnswer)
  {
    var listed := Base.ListDevices(h);
    if listed.Err? {
      return Err(listed.error);
    }
    var factors := SizeFactors(sizeAnswer, cfg.defaultFactors);
    if factors.Err? {
      return Err(factors.error);
    }
    r := Setup(h, cfg, Strip(deviceAnswer), PartitionNames(namesAnswer), factors.value,
               mountAnswer, keyAnswer, Confirmed(confirmAnswer));
  }

  /** The mount directory, the key directory, the confirmation and what
      follows it, on the host. */
  method Setup(h: Host, cfg: MainConfig, device: string, names: seq<string>, factors: seq<real>,
               mountAnswer: string, keyAnswer: string, confirmed: bool) returns (r: Result<Ending>)
    modifies h
    ensures Step(h.State(), r) == SetupSpec(h.answer, h.entropy, old(h.State()), cfg, device, names, factors,
                                            mountAnswer, keyAnswer, confirmed)
  {
    var mountDir := Strip(mountAnswer);
    if mountDir == [] {
      mountDir := cfg.defaultMountDir;
      h.MakeDirsIfAbsent(mountDir);
    } else if mountDir !in h.dirs {
      return Err(FileNotFoundError(mountDir));
    }
    var keyDir := ChosenDir(keyAnswer, cfg.defaultKeyDir);
    h.MakeDirsIfAbsent(keyDir);
    if !confirmed {
      return Ok(Canceled);
    }
    r := Proceed(h, device, names, factors, mountDir, keyDir);
  }

  /** The session, then the remount, on the host. */
  method Proceed(h: Host, device: string, names: seq<string>, factors: seq<real>, mountDir: string, keyDir: string)
    returns (r: Result<Ending>)
    modifies h
    ensures Step(h.State(), r) == ProceedSpec(h.answer, h.entropy, old(h.State()), device, names, factors, mountDir, keyDir)
  {
    var prepared := Prepare(h, device, names, factors, mountDir, keyDir);
    if prepared.Err? {
      return Err(prepared.error);
    }
    var remounted := UnmountAndMountAll(h, device, mountDir, keyDir);
    if remounted.Err? {
      return Err(remounted.error);
    }
    return Ok(Formatted(device, prepared.value));
  }

  // ---------------------------------------------------------------------
  // properties of the run

  /** The run is the listing, then the setup from the state after it, once
      the listing and the size answer succeeded. */
  lemma MainSteps(w: Oracle, e: Entropy, m: Machine, cfg: MainConfig, deviceAnswer: string, namesAnswer: string,
                  sizeAnswer: string, mountAnswer: string, keyAnswer: string, confirmAnswer: string)
    ensures var s := MainSpec(w, e, m, cfg, deviceAnswer, namesAnswer, sizeAnswer, mountAnswer, keyAnswer, confirmAnswer);
      var listed := Exec(w, m, ListDisks);
      var factors := SizeFactors(sizeAnswer, cfg.defaultFactors);
      && listed.state.trace == m.trace + [ListDisks]
      && listed.state.dirs == m.dirs
      && (listed.result.Err? || factors.Err? ==> s.result.Err?)
      && (listed.result.Ok? && factors.Ok? ==>
            s == SetupSpec(w, e, listed.state, cfg, Strip(deviceAnswer), PartitionNames(namesAnswer), factors.value,
                           mountAnswer, keyAnswer, Confirmed(confirmAnswer)))
  {
  }

  /** A mount directory the user named is never created: when it does not
      exist the run raises `FileNotFoundError` right after the listing,
      before anything else is created or issued. */
  lemma MainUserMountDir(w: Oracle, e: Entropy, m: Machine, cfg: MainConfig, deviceAnswer: string, namesAnswer: string,
                         sizeAnswer: string, mountAnswer: string, keyAnswer: string, confirmAnswer: string)
    ensures var s := MainSpec(w, e, m, cfg, deviceAnswer, namesAnswer, sizeAnswer, mountAnswer, keyAnswer, confirmAnswer);
      var listed := Exec(w, m, ListDisks);
      listed.result.Ok? && SizeFactors(sizeAnswer, cfg.defaultFactors).Ok?
      && Strip(mountAnswer) != [] && Strip(mountAnswer) !in m.dirs ==>
        s == Step(listed.state, Err(FileNotFoundError(Strip(mountAnswer))))
  {
    MainSteps(w, e, m, cfg, deviceAnswer, namesAnswer, sizeAnswer, mountAnswer, keyAnswer, confirmAnswer);
  }

  /** After the setup, the mount directory and the key directory exist,
      exactly the default mount directory (when chosen) and the key
      directory were added, and nothing else changed. */
  lemma DirsReadyState(m: Machine, cfg: MainConfig, mountAnswer: string, keyAnswer: string)
    ensures var ready := DirsReady(m, cfg, mountAnswer, keyAnswer);
      var keyDir := ChosenDir(keyAnswer, cfg.defaultKeyDir);
      && keyDir in ready.dirs
      && (Strip(mountAnswer) == [] ==> ready.dirs == m.dirs + {cfg.defaultMountDir, keyDir})
      && (Strip(mountAnswer) != [] ==> ready.dirs == m.dirs + {keyDir})
      && ready.trace == m.trace && ready.mappings == m.mappings && ready.mounts == m.mounts && ready.keys == m.keys
  {
    var keyDir := ChosenDir(keyAnswer, cfg.defaultKeyDir);
    var m1 := if Strip(mountAnswer) == [] then WithDir(m, cfg.defaultMountDir) else m;
    assert DirsReady(m, cfg, mountAnswer, keyAnswer) == WithDir(m1, keyDir);
  }

  /** A canceled run was not confirmed; it issued the listing only, created
      the default mount directory (when chosen) and the key directory, and
      changed nothing else. */
  lemma MainCancel(w: Oracle, e: Entropy, m: Machine, cfg: MainConfig, deviceAnswer: string, namesAnswer: string,
                   sizeAnswer: string, mountAnswer: string, keyAnswer: string, confirmAnswer: string)
    ensures var s := MainSpec(w, e, m, cfg, deviceAnswer, namesAnswer, sizeAnswer, mountAnswer, keyAnswer, confirmAnswer);
      var keyDir := ChosenDir(keyAnswer, cfg.defaultKeyDir);
      s.result == Ok(Canceled) ==>
        && !Confirmed(confirmAnswer)
        && Issued(m, s.state) == [ListDisks]
        && (Strip(mountAnswer) == [] ==> s.state.dirs == m.dirs + {cfg.defaultMountDir, keyDir})
        && (Strip(mountAnswer) != [] ==> s.state.dirs == m.dirs + {keyDir})
        && s.state.mappings == m.mappings && s.state.mounts == m.mounts && s.state.keys == m.keys
  {
    var s := MainSpec(w, e, m, cfg, deviceAnswer, namesAnswer, sizeAnswer, mountAnswer, keyAnswer, confirmAnswer);
    var listed := Exec(w, m, ListDisks);
    MainSteps(w, e, m, cfg, deviceAnswer, namesAnswer, sizeAnswer, mountAnswer, keyAnswer, confirmAnswer);
    if s.result == Ok(Canceled) {
      var factors := SizeFactors(sizeAnswer, cfg.defaultFactors);
      SetupCancel(w, e, listed.state, cfg, Strip(deviceAnswer), PartitionNames(namesAnswer), factors.value,
                  mountAnswer, keyAnswer, Confirmed(confirmAnswer));
      DirsReadyState(listed.state, cfg, mountAnswer, keyAnswer);
    }
  }

  /** The setup reports a cancel only without a confirmation, and then in
      the state with the directories in place. */
  lemma SetupCancel(w: Oracle, e: Entropy, m: Machine, cfg: MainConfig, device: string, names: seq<string>,
                    factors: seq<real>, mountAnswer: string, keyAnswer: string, confirmed: bool)
    ensures var s := SetupSpec(w, e, m, cfg, device, names, factors, mountAnswer, keyAnswer, confirmed);
      s.result == Ok(Canceled) ==> !confirmed && s.state == DirsReady(m, cfg, mountAnswer, keyAnswer)
  {
    var ready := DirsReady(m, cfg, mountAnswer, keyAnswer);
    var mountDir := ChosenDir(mountAnswer, cfg.defaultMountDir);
    var keyDir := ChosenDir(keyAnswer, cfg.defaultKeyDir);
    var prepared := PrepareSpec(w, e, ready, device, names, factors, mountDir, keyDir);
    ConcludeSteps(prepared, RemountSpec(w, prepared.state, device, mountDir, keyDir), device);
  }

  /** `Conclude` succeeds only when the session and the remount both
      succeeded, and then reports the session's records in the remount's
      state. */
  lemma ConcludeSteps(prepared: Step<Records>, remounted: Step<()>, device: string)
    ensures var s := Conclude(prepared, remounted, device);
      s.result.Ok? ==>
        && prepared.result.Ok?
        && remounted.result.Ok?
        && s == Step(remounted.state, Ok(Formatted(device, prepared.result.value)))
  {
  }

  /** A formatted run reached the session: the listing and the size answer
      succeeded, the mount directory existed or was the default, the user
      confirmed, and the rest is the session and the remount from the
      state with the directories in place. */
  lemma MainReaches(w: Oracle, e: Entropy, m: Machine, cfg: MainConfig, deviceAnswer: string, namesAnswer: string,
                    sizeAnswer: string, mountAnswer: string, keyAnswer: string, confirmAnswer: string)
    ensures var s := MainSpec(w, e, m, cfg, deviceAnswer, namesAnswer, sizeAnswer, mountAnswer, keyAnswer, confirmAnswer);
      var listed := Exec(w, m, ListDisks);
      var factors := SizeFactors(sizeAnswer, cfg.defaultFactors);
      s.result.Ok? && s.result.value.Formatted? ==>
        && listed.result.Ok? && factors.Ok?
        && Confirmed(confirmAnswer)
        && s == ProceedSpec(w, e, DirsReady(listed.state, cfg, mountAnswer, keyAnswer), Strip(deviceAnswer),
                            PartitionNames(namesAnswer), factors.value, ChosenDir(mountAnswer, cfg.defaultMountDir),
                            ChosenDir(keyAnswer, cfg.defaultKeyDir))
  {
    MainSteps(w, e, m, cfg, deviceAnswer, namesAnswer, sizeAnswer, mountAnswer, keyAnswer, confirmAnswer);
  }

  /** After the confirmation: a formatted run ran the session and then the
      remount, which was the last thing it did. */
  lemma ProceedOrder(w: Oracle, e: Entropy, m: Machine, device: string, names: seq<string>, factors: seq<real>,
                     mountDir: string, keyDir: string)
    ensures var s := ProceedSpec(w, e, m, device, names, factors, mountDir, keyDir);
      var prepared := PrepareSpec(w, e, m, device, names, factors, mountDir, keyDir);
      s.result.Ok? ==>
        && s.result.value == Formatted(device, prepared.result.value)
        && prepared.result.Ok?
        && RemountSpec(w, prepared.state, device, mountDir, keyDir).state == s.state
        && RemountSpec(w, prepared.state, device, mountDir, keyDir).result.Ok?
        && m.trace <= prepared.state.trace <= s.state.trace
        && Issued(m, s.state) == Issued(m, prepared.state) + Issued(prepared.state, s.state)
  {
    var s := ProceedSpec(w, e, m, device, names, factors, mountDir, keyDir);
    var prepared := PrepareSpec(w, e, m, device, names, factors, mountDir, keyDir);
    ConcludeSteps(prepared, RemountSpec(w, prepared.state, device, mountDir, keyDir), device);
    if s.result.Ok? {
      PrepareOrder(w, e, m, device, names, factors, mountDir, keyDir);
      RemountOrder(w, prepared.state, device, mountDir, keyDir);
      IssuedConcat(m, prepared.state, s.state);
    }
  }

  /** A formatted run formatted the stripped device answer after a `yes`,
      issued the listing, then the session's commands, then the remount's,
      and nothing else. */
  lemma MainOrder(w: Oracle, e: Entropy, m: Machine, cfg: MainConfig, deviceAnswer: string, namesAnswer: string,
                  sizeAnswer: string, mountAnswer: string, keyAnswer: string, confirmAnswer: string)
    ensures var s := MainSpec(w, e, m, cfg, deviceAnswer, namesAnswer, sizeAnswer, mountAnswer, keyAnswer, confirmAnswer);
      var ready := DirsReady(Exec(w, m, ListDisks).state, cfg, mountAnswer, keyAnswer);
      var factors := SizeFactors(sizeAnswer, cfg.defaultFactors);
      s.result.Ok? && s.result.value.Formatted? ==>
        && factors.Ok?
        && var prepared := PrepareSpec(w, e, ready, Strip(deviceAnswer), PartitionNames(namesAnswer), factors.value,
                                       ChosenDir(mountAnswer, cfg.defaultMountDir), ChosenDir(keyAnswer, cfg.defaultKeyDir));
        && Confirmed(confirmAnswer)
        && s.result.value.device == Strip(deviceAnswer)
        && prepared.result == Ok(s.result.value.records)
        && m.trace <= prepared.state.trace <= s.state.trace
        && Issued(m, s.state) == [ListDisks] + (Issued(ready, prepared.state) + Issued(prepared.state, s.state))
  {
    var s := MainSpec(w, e, m, cfg, deviceAnswer, namesAnswer, sizeAnswer, mountAnswer, keyAnswer, confirmAnswer);
    var listed := Exec(w, m, ListDisks);
    var ready := DirsReady(listed.state, cfg, mountAnswer, keyAnswer);
    MainReaches(w, e, m, cfg, deviceAnswer, namesAnswer, sizeAnswer, mountAnswer, keyAnswer, confirmAnswer);
    if s.result.Ok? && s.result.value.Formatted? {
      DirsReadyState(listed.state, cfg, mountAnswer, keyAnswer);
      ProceedOrder(w, e, ready, Strip(deviceAnswer), PartitionNames(namesAnswer),
                   SizeFactors(sizeAnswer, cfg.defaultFactors).value,
                   ChosenDir(mountAnswer, cfg.defaultMountDir), ChosenDir(keyAnswer, cfg.defaultKeyDir));
      IssuedConcat(m, ready, s.state);
      assert Issued(m, ready) == [ListDisks];
    }
  }

  /** A formatted run's records have one entry per created partition, at
      most three, in partition order, each naming the partition and its key
      file under the chosen key directory; the `result` entries and key
      files agree with them entry by entry. */
  lemma MainRecords(w: Oracle, e: Entropy, m: Machine, cfg: MainConfig, deviceAnswer: string, namesAnswer: string,
                    sizeAnswer: string, mountAnswer: string, keyAnswer: string, confirmAnswer: string)
    ensures var s := MainSpec(w, e, m, cfg, deviceAnswer, namesAnswer, sizeAnswer, mountAnswer, keyAnswer, confirmAnswer);
      var keyDir := ChosenDir(keyAnswer, cfg.defaultKeyDir);
      s.result.Ok? && s.result.value.Formatted? ==>
        var out := s.result.value;
        var n := Count(PartitionNames(namesAnswer), SizeFactors(sizeAnswer, cfg.defaultFactors).value);
        && n <= 3
        && |out.records.infos| == n
        && (forall k :: 0 <= k < n ==>
              && out.records.infos[k].partition == PartitionPath(out.device, k)
              && out.records.infos[k].encryptionKey == KeyFilePath(keyDir, PartitionPath(out.device, k)))
        && out.records == RecordsOf(out.records.infos)
  {
    var s := MainSpec(w, e, m, cfg, deviceAnswer, namesAnswer, sizeAnswer, mountAnswer, keyAnswer, confirmAnswer);
    var listed := Exec(w, m, ListDisks);
    var ready := DirsReady(listed.state, cfg, mountAnswer, keyAnswer);
    MainReaches(w, e, m, cfg, deviceAnswer, namesAnswer, sizeAnswer, mountAnswer, keyAnswer, confirmAnswer);
    if s.result.Ok? && s.result.value.Formatted? {
      var device := Strip(deviceAnswer);
      var names := PartitionNames(namesAnswer);
      var factors := SizeFactors(sizeAnswer, cfg.defaultFactors).value;
      var mountDir := ChosenDir(mountAnswer, cfg.defaultMountDir);
      var keyDir := ChosenDir(keyAnswer, cfg.defaultKeyDir);
      ProceedOrder(w, e, ready, device, names, factors, mountDir, keyDir);
      PrepareRecords(w, e, ready, device, names, factors, mountDir, keyDir);
    }
  }
}
