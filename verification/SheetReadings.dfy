/** What the engine reads off a rendered sheet: its mounts, its settings, its scratch and its controls. */
module SheetReadings {
  import opened Wrappers
  import opened Placements
  import opened Lines
  import opened Quoting
  import opened Sheets

  const VOLUME := "Volume="
  const SETTING := "Environment="
  const SECRETS := "EnvironmentFile="
  const SCRATCH := "Tmpfs="

  /** Every value a key is given, in the order of the lines. */
  function ValuesIn(lines: seq<string>, key: string): seq<string> {
    if lines == [] then []
    else (if key <= lines[0] then [lines[0][|key|..]] else []) + ValuesIn(lines[1..], key)
  }

  function ValuesOf(sheet: string, key: string): seq<string> { ValuesIn(Split(sheet, '\n'), key) }

  lemma {:induction false} ValuesOfBoth(a: seq<string>, b: seq<string>, key: string)
    ensures ValuesIn(a + b, key) == ValuesIn(a, key) + ValuesIn(b, key)
    decreases |a|
  {
    if a == [] {
      assert a + b == b;
    } else {
      assert (a + b)[1..] == a[1..] + b;
      ValuesOfBoth(a[1..], b, key);
    }
  }

  /** No line opens as this key does. */
  predicate Elsewhere(lines: seq<string>, key: string) { forall l :: l in lines ==> !(key <= l) }

  lemma {:induction false} NoValue(lines: seq<string>, key: string)
    requires Elsewhere(lines, key)
    ensures ValuesIn(lines, key) == []
    decreases |lines|
  {
    if lines != [] {
      assert lines[0] in lines && forall l :: l in lines[1..] ==> l in lines;
      NoValue(lines[1..], key);
    }
  }

  function Keyed(key: string, values: seq<string>): seq<string> {
    seq(|values|, i requires 0 <= i < |values| => key + values[i])
  }

  lemma {:induction false} KeyedValues(key: string, values: seq<string>)
    ensures ValuesIn(Keyed(key, values), key) == values
    decreases |values|
  {
    if values != [] {
      assert Keyed(key, values)[1..] == Keyed(key, values[1..]);
      KeyedValues(key, values[1..]);
      assert (key + values[0])[|key|..] == values[0];
    }
  }

  /** Lines that open on another character carry no such key. */
  lemma OpenElsewhere(lines: seq<string>, key: string)
    requires key != "" && forall l :: l in lines ==> l == "" || l[0] != key[0]
    ensures Elsewhere(lines, key)
  {
  }

  // ---- The blocks of a sheet

  /** The lines before the mounts, and those after the scratch, open on none of the four keys. */
  function Before(prose: seq<string>, w: Placement, port: int): seq<string> {
    HeadLines(prose, w) + ([ImageLine(w)] + ([NameLine(w)] + ([PublishLine(w, port)] + CONTROLS)))
  }

  function After(w: Placement): seq<string> { LowPortLines(w) + INSTALLATION }

  function Middle(w: Placement, origin: string): seq<string> {
    VolumeLines(w.volumes) + ((EnvironmentLines(w.environment) + OriginLines(w, origin)) + (SecretLines(w) + ScratchLines(w.writablePaths)))
  }

  predicate Letter(c: char) { c == 'V' || c == 'E' || c == 'T' }

  predicate Quiet(lines: seq<string>) { forall l :: l in lines ==> l == "" || !Letter(l[0]) }

  lemma HeadIsQuiet(prose: seq<string>, w: Placement)
    requires Commentary(prose)
    ensures Quiet(HeadLines(prose, w))
  {
  }

  lemma NamesAreQuiet(w: Placement, port: int)
    ensures Quiet([ImageLine(w)] + ([NameLine(w)] + [PublishLine(w, port)]))
  {
    assert IMAGE[0] == 'I' && "ContainerName="[0] == 'C' && PUBLISHED[0] == 'P';
  }

  lemma ControlsAreQuiet()
    ensures Quiet(CONTROLS)
  {
  }

  lemma LastLinesAreQuiet()
    ensures Quiet(INSTALLATION) && Quiet(["Sysctl=net.ipv4.ip_unprivileged_port_start=0"])
  {
    assert INSTALLATION == ["", "[Service]", "Restart=on-failure", "", "[Install]", "WantedBy=default.target"];
    assert "[Service]"[0] == '[' && "Restart=on-failure"[0] == 'R' && "[Install]"[0] == '[' && "WantedBy=default.target"[0] == 'W';
    assert "Sysctl=net.ipv4.ip_unprivileged_port_start=0"[0] == 'S';
  }

  lemma InstallationIsQuiet(w: Placement)
    ensures Quiet(After(w))
  {
    LastLinesAreQuiet();
    forall l | l in After(w) ensures l == "" || !Letter(l[0]) {
      assert l in LowPortLines(w) || l in INSTALLATION;
    }
  }

  lemma BeforeIsQuiet(prose: seq<string>, w: Placement, port: int)
    requires Commentary(prose)
    ensures Quiet(Before(prose, w, port))
  {
    HeadIsQuiet(prose, w);
    NamesAreQuiet(w, port);
    ControlsAreQuiet();
    forall l | l in Before(prose, w, port) ensures l == "" || !Letter(l[0]) {
      assert l in HeadLines(prose, w) || l in [ImageLine(w)] + ([NameLine(w)] + [PublishLine(w, port)]) || l in CONTROLS;
    }
  }

  lemma QuietHasNoValue(lines: seq<string>, key: string)
    requires Quiet(lines) && key != "" && Letter(key[0])
    ensures ValuesIn(lines, key) == []
  {
    OpenElsewhere(lines, key);
    NoValue(lines, key);
  }

  lemma SheetInBlocks(prose: seq<string>, w: Placement, port: int, origin: string)
    ensures SheetLines(prose, w, port, origin) == Before(prose, w, port) + (Middle(w, origin) + After(w))
  {
    var v, e, o, s, t := VolumeLines(w.volumes), EnvironmentLines(w.environment), OriginLines(w, origin), SecretLines(w), ScratchLines(w.writablePaths);
    Regrouped(s, t, After(w));
    Regrouped(e + o, s + t, After(w));
    Regrouped(e, o, (s + t) + After(w));
    Regrouped(v, (e + o) + (s + t), After(w));
    var tail := Middle(w, origin) + After(w);
    assert TailLines(w, origin) == CONTROLS + tail;
    Regrouped([PublishLine(w, port)], CONTROLS, tail);
    Regrouped([NameLine(w)], [PublishLine(w, port)] + CONTROLS, tail);
    Regrouped([ImageLine(w)], [NameLine(w)] + ([PublishLine(w, port)] + CONTROLS), tail);
    Regrouped(HeadLines(prose, w), [ImageLine(w)] + ([NameLine(w)] + ([PublishLine(w, port)] + CONTROLS)), tail);
  }

  lemma SheetValues(prose: seq<string>, w: Placement, port: int, origin: string, key: string)
    requires Commentary(prose) && key != "" && Letter(key[0])
    ensures ValuesIn(SheetLines(prose, w, port, origin), key) == ValuesIn(Middle(w, origin), key)
  {
    SheetInBlocks(prose, w, port, origin);
    BeforeIsQuiet(prose, w, port);
    QuietHasNoValue(Before(prose, w, port), key);
    InstallationIsQuiet(w);
    QuietHasNoValue(After(w), key);
    ValuesOfBoth(Middle(w, origin), After(w), key);
    ValuesOfBoth(Before(prose, w, port), Middle(w, origin) + After(w), key);
  }

  // ---- The four keys

  function MountTexts(volumes: seq<VolumeMount>): seq<string> {
    seq(|volumes|, i requires 0 <= i < |volumes| => volumes[i].host + (":" + (volumes[i].container + ":rw")))
  }

  function ScratchTexts(paths: seq<string>): seq<string> {
    seq(|paths|, i requires 0 <= i < |paths| => paths[i] + ":rw,mode=1777")
  }

  function Settings(w: Placement, origin: string): seq<string> {
    w.environment + (if w.originEnvironmentPrefix == "" then [] else [w.originEnvironmentPrefix + origin])
  }

  function Written(settings: seq<string>): seq<string> {
    seq(|settings|, i requires 0 <= i < |settings| => EnvironmentLine(settings[i]))
  }

  function SecretTexts(w: Placement): seq<string> { if w.BearsSecrets() then [w.EnvironmentFilePath()] else [] }

  lemma VolumesAreKeyed(w: Placement)
    ensures VolumeLines(w.volumes) == Keyed(VOLUME, MountTexts(w.volumes))
  {
    forall i | 0 <= i < |w.volumes| ensures VolumeLines(w.volumes)[i] == Keyed(VOLUME, MountTexts(w.volumes))[i] {
      var m := w.volumes[i];
      Regrouped(VOLUME + m.host + ":", m.container, ":rw");
      Regrouped(VOLUME + m.host, ":", m.container + ":rw");
      Regrouped(VOLUME, m.host, ":" + (m.container + ":rw"));
    }
  }

  lemma ScratchIsKeyed(w: Placement)
    ensures ScratchLines(w.writablePaths) == Keyed(SCRATCH, ScratchTexts(w.writablePaths))
  {
    forall i | 0 <= i < |w.writablePaths| ensures ScratchLines(w.writablePaths)[i] == Keyed(SCRATCH, ScratchTexts(w.writablePaths))[i] {
      Regrouped(SCRATCH, w.writablePaths[i], ":rw,mode=1777");
    }
  }

  lemma SettingsAreKeyed(w: Placement, origin: string)
    ensures EnvironmentLines(w.environment) + OriginLines(w, origin) == Keyed(SETTING, Written(Settings(w, origin)))
  {
  }

  lemma SecretsAreKeyed(w: Placement)
    ensures SecretLines(w) == Keyed(SECRETS, SecretTexts(w))
  {
  }

  /** Lines of one key are none of another's. */
  lemma KeysAreApart(values: seq<string>)
    ensures Elsewhere(Keyed(VOLUME, values), SETTING) && Elsewhere(Keyed(VOLUME, values), SECRETS) && Elsewhere(Keyed(VOLUME, values), SCRATCH)
    ensures Elsewhere(Keyed(SCRATCH, values), SETTING) && Elsewhere(Keyed(SCRATCH, values), SECRETS) && Elsewhere(Keyed(SCRATCH, values), VOLUME)
    ensures Elsewhere(Keyed(SETTING, values), VOLUME) && Elsewhere(Keyed(SETTING, values), SCRATCH)
    ensures Elsewhere(Keyed(SECRETS, values), VOLUME) && Elsewhere(Keyed(SECRETS, values), SCRATCH)
  {
    assert VOLUME[0] == 'V' && SCRATCH[0] == 'T' && SETTING[0] == 'E' && SECRETS[0] == 'E';
  }

  lemma SettingsAreNoSecrets(values: seq<string>)
    ensures Elsewhere(Keyed(SETTING, values), SECRETS) && Elsewhere(Keyed(SECRETS, values), SETTING)
  {
    assert |SETTING| == 12 && SETTING[11] == '=' && SECRETS[11] == 'F';
  }

  lemma MiddleValues(v: seq<string>, e: seq<string>, s: seq<string>, t: seq<string>, key: string)
    ensures ValuesIn(v + (e + (s + t)), key) == ValuesIn(v, key) + (ValuesIn(e, key) + (ValuesIn(s, key) + ValuesIn(t, key)))
  {
    ValuesOfBoth(s, t, key);
    ValuesOfBoth(e, s + t, key);
    ValuesOfBoth(v, e + (s + t), key);
  }

  /** The mounts, the settings, the file of the secrets, and the scratch. */
  function Blocks(v: seq<string>, e: seq<string>, s: seq<string>, t: seq<string>): seq<string> {
    Keyed(VOLUME, v) + (Keyed(SETTING, e) + (Keyed(SECRETS, s) + Keyed(SCRATCH, t)))
  }

  lemma VolumesAreRead(v: seq<string>, e: seq<string>, s: seq<string>, t: seq<string>)
    ensures ValuesIn(Blocks(v, e, s, t), VOLUME) == v
  {
    KeysAreApart(e);
    KeysAreApart(s);
    KeysAreApart(t);
    KeyedValues(VOLUME, v);
    NoValue(Keyed(SETTING, e), VOLUME);
    NoValue(Keyed(SECRETS, s), VOLUME);
    NoValue(Keyed(SCRATCH, t), VOLUME);
    MiddleValues(Keyed(VOLUME, v), Keyed(SETTING, e), Keyed(SECRETS, s), Keyed(SCRATCH, t), VOLUME);
  }

  lemma SettingsAreRead(v: seq<string>, e: seq<string>, s: seq<string>, t: seq<string>)
    ensures ValuesIn(Blocks(v, e, s, t), SETTING) == e
  {
    KeysAreApart(v);
    SettingsAreNoSecrets(s);
    KeysAreApart(t);
    KeyedValues(SETTING, e);
    NoValue(Keyed(VOLUME, v), SETTING);
    NoValue(Keyed(SECRETS, s), SETTING);
    NoValue(Keyed(SCRATCH, t), SETTING);
    MiddleValues(Keyed(VOLUME, v), Keyed(SETTING, e), Keyed(SECRETS, s), Keyed(SCRATCH, t), SETTING);
  }

  lemma SecretsAreRead(v: seq<string>, e: seq<string>, s: seq<string>, t: seq<string>)
    ensures ValuesIn(Blocks(v, e, s, t), SECRETS) == s
  {
    KeysAreApart(v);
    SettingsAreNoSecrets(e);
    KeysAreApart(t);
    KeyedValues(SECRETS, s);
    NoValue(Keyed(VOLUME, v), SECRETS);
    NoValue(Keyed(SETTING, e), SECRETS);
    NoValue(Keyed(SCRATCH, t), SECRETS);
    MiddleValues(Keyed(VOLUME, v), Keyed(SETTING, e), Keyed(SECRETS, s), Keyed(SCRATCH, t), SECRETS);
  }

  lemma ScratchIsRead(v: seq<string>, e: seq<string>, s: seq<string>, t: seq<string>)
    ensures ValuesIn(Blocks(v, e, s, t), SCRATCH) == t
  {
    KeysAreApart(v);
    KeysAreApart(e);
    KeysAreApart(s);
    KeyedValues(SCRATCH, t);
    NoValue(Keyed(VOLUME, v), SCRATCH);
    NoValue(Keyed(SETTING, e), SCRATCH);
    NoValue(Keyed(SECRETS, s), SCRATCH);
    MiddleValues(Keyed(VOLUME, v), Keyed(SETTING, e), Keyed(SECRETS, s), Keyed(SCRATCH, t), SCRATCH);
  }

  // ---- The text of the sheet

  /** Every value a placement gives a line of its own is on one line. */
  predicate Spelled(w: Placement, origin: string) {
    && OneLine(w.description) && OneLine(w.image) && OneLine(w.containerName) && OneLine(w.home)
    && (forall m :: m in w.volumes ==> OneLine(m.host) && OneLine(m.container))
    && AllOneLine(w.environment) && AllOneLine(w.writablePaths) && OneLine(w.originEnvironmentPrefix + origin)
  }

  lemma BeforeIsOneLine(prose: seq<string>, w: Placement, port: int, origin: string)
    requires Commentary(prose) && Spelled(w, origin)
    ensures AllOneLine(Before(prose, w, port))
  {
    HeadOpensElsewhere(prose, w, 'P');
    NamesOpenElsewhere(w);
    PublishLineIsTight(w, port);
    ControlsAreOneLine();
    forall l | l in Before(prose, w, port) ensures OneLine(l) {
      assert l in HeadLines(prose, w) || l == ImageLine(w) || l == NameLine(w) || l == PublishLine(w, port) || l in CONTROLS;
    }
  }

  lemma ControlsAreOneLine()
    ensures AllOneLine(CONTROLS)
  {
  }

  lemma InstallationIsOneLine()
    ensures AllOneLine(INSTALLATION)
  {
  }

  lemma AfterIsOneLine(w: Placement)
    ensures AllOneLine(After(w))
  {
    InstallationIsOneLine();
    LowPortIsOneLine();
  }

  lemma LowPortIsOneLine()
    ensures OneLine("Sysctl=net.ipv4.ip_unprivileged_port_start=0")
  {
  }

  lemma KeyedAreOneLine(key: string, values: seq<string>)
    requires OneLine(key) && AllOneLine(values)
    ensures AllOneLine(Keyed(key, values))
  {
    forall l | l in Keyed(key, values) ensures OneLine(l) {
      var i :| 0 <= i < |values| && Keyed(key, values)[i] == l;
      assert values[i] in values;
      OneLineOfBoth(key, values[i]);
    }
  }

  lemma KeysAreOneLine()
    ensures OneLine(VOLUME) && OneLine(SETTING) && OneLine(SECRETS) && OneLine(SCRATCH)
    ensures OneLine(":") && OneLine(":rw") && OneLine(":rw,mode=1777") && OneLine("/secrets.env")
  {
  }

  lemma MountsAreOneLine(w: Placement, origin: string)
    requires Spelled(w, origin)
    ensures AllOneLine(MountTexts(w.volumes)) && AllOneLine(ScratchTexts(w.writablePaths))
  {
    KeysAreOneLine();
    forall l | l in MountTexts(w.volumes) ensures OneLine(l) {
      var i :| 0 <= i < |w.volumes| && MountTexts(w.volumes)[i] == l;
      assert w.volumes[i] in w.volumes;
    }
    forall l | l in ScratchTexts(w.writablePaths) ensures OneLine(l) {
      var i :| 0 <= i < |w.writablePaths| && ScratchTexts(w.writablePaths)[i] == l;
      assert w.writablePaths[i] in w.writablePaths;
    }
  }

  lemma SettingsAreOneLine(w: Placement, origin: string)
    requires Spelled(w, origin)
    ensures AllOneLine(Written(Settings(w, origin))) && OneLine(w.EnvironmentFilePath())
  {
    KeysAreOneLine();
    var settings := Settings(w, origin);
    forall l | l in Written(settings) ensures OneLine(l) {
      var i :| 0 <= i < |settings| && Written(settings)[i] == l;
      assert settings[i] in w.environment || settings[i] == w.originEnvironmentPrefix + origin;
      NoLineIsAdded(settings[i]);
    }
  }

  lemma MiddleInKeys(w: Placement, origin: string)
    ensures Middle(w, origin) ==
              Blocks(MountTexts(w.volumes), Written(Settings(w, origin)), SecretTexts(w), ScratchTexts(w.writablePaths))
  {
    VolumesAreKeyed(w);
    SettingsAreKeyed(w, origin);
    SecretsAreKeyed(w);
    ScratchIsKeyed(w);
  }

  lemma MiddleIsOneLine(w: Placement, origin: string)
    requires Spelled(w, origin)
    ensures AllOneLine(Middle(w, origin))
  {
    KeysAreOneLine();
    MountsAreOneLine(w, origin);
    SettingsAreOneLine(w, origin);
    MiddleInKeys(w, origin);
    KeyedAreOneLine(VOLUME, MountTexts(w.volumes));
    KeyedAreOneLine(SETTING, Written(Settings(w, origin)));
    KeyedAreOneLine(SECRETS, if w.BearsSecrets() then [w.EnvironmentFilePath()] else []);
    KeyedAreOneLine(SCRATCH, ScratchTexts(w.writablePaths));
  }

  /** A sheet is split back into exactly the lines it was written from. */
  lemma SheetIsSplit(prose: seq<string>, w: Placement, port: int, origin: string)
    requires Commentary(prose) && Spelled(w, origin)
    ensures Split(RenderSheet(prose, w, port, origin), '\n') == SheetLines(prose, w, port, origin) + [""]
  {
    SheetInBlocks(prose, w, port, origin);
    BeforeIsOneLine(prose, w, port, origin);
    MiddleIsOneLine(w, origin);
    AfterIsOneLine(w);
    SplitLines(SheetLines(prose, w, port, origin), "");
    assert Unlines(SheetLines(prose, w, port, origin)) + "" == RenderSheet(prose, w, port, origin);
  }

  lemma KeyOfTheText(prose: seq<string>, w: Placement, port: int, origin: string, key: string)
    requires Commentary(prose) && Spelled(w, origin) && key != "" && Letter(key[0])
    ensures ValuesOf(RenderSheet(prose, w, port, origin), key) == ValuesIn(Middle(w, origin), key)
  {
    SheetIsSplit(prose, w, port, origin);
    SheetValues(prose, w, port, origin, key);
    ValuesOfBoth(SheetLines(prose, w, port, origin), [""], key);
    NoValue([""], key);
  }

  /** What a sheet mounts, sets and writes to is what its placement says, each once and in its order. */
  lemma SheetReadsBack(prose: seq<string>, w: Placement, port: int, origin: string)
    requires Commentary(prose) && Spelled(w, origin)
    ensures var sheet := RenderSheet(prose, w, port, origin);
            && ValuesOf(sheet, VOLUME) == MountTexts(w.volumes)
            && ValuesOf(sheet, SETTING) == Written(Settings(w, origin))
            && ValuesOf(sheet, SECRETS) == (if w.BearsSecrets() then [w.EnvironmentFilePath()] else [])
            && ValuesOf(sheet, SCRATCH) == ScratchTexts(w.writablePaths)
  {
    assert VOLUME[0] == 'V' && SCRATCH[0] == 'T' && SETTING[0] == 'E' && SECRETS[0] == 'E';
    KeyOfTheText(prose, w, port, origin, VOLUME);
    KeyOfTheText(prose, w, port, origin, SETTING);
    KeyOfTheText(prose, w, port, origin, SECRETS);
    KeyOfTheText(prose, w, port, origin, SCRATCH);
    MiddleInKeys(w, origin);
    var v, e, s, t := MountTexts(w.volumes), Written(Settings(w, origin)), SecretTexts(w), ScratchTexts(w.writablePaths);
    VolumesAreRead(v, e, s, t);
    SettingsAreRead(v, e, s, t);
    SecretsAreRead(v, e, s, t);
    ScratchIsRead(v, e, s, t);
  }

  /** Every setting comes out of the sheet as it went in, whatever it holds. */
  lemma SettingsReadBack(prose: seq<string>, w: Placement, port: int, origin: string, i: nat)
    requires Commentary(prose) && Spelled(w, origin) && i < |Settings(w, origin)|
    ensures var values := ValuesOf(RenderSheet(prose, w, port, origin), SETTING);
            |values| == |Settings(w, origin)| && Read(values[i]) == Settings(w, origin)[i]
  {
    SheetReadsBack(prose, w, port, origin);
    NothingIsLost(Settings(w, origin)[i]);
  }

  /** A mount is read as its two ends, as long as neither holds the separator. */
  lemma MountReadsBack(m: VolumeMount)
    requires ':' !in m.host && ':' !in m.container
    ensures Split(m.host + (":" + (m.container + ":rw")), ':') == [m.host, m.container, "rw"]
  {
    assert ":rw" == [':'] + "rw";
    Regrouped(m.host, [':'], m.container + ":rw");
    Regrouped(m.container, [':'], "rw");
    SplitAtTheFirst(m.host, ':', m.container + ":rw");
    SplitAtTheFirst(m.container, ':', "rw");
    NothingToSplit("rw", ':');
  }

  /** No placement relaxes the four controls every sheet carries. */
  lemma ControlsAreWritten(prose: seq<string>, w: Placement, port: int, origin: string)
    requires Commentary(prose) && Spelled(w, origin)
    ensures forall l :: l in ["Pull=never", "ReadOnly=true", "NoNewPrivileges=true", "DropCapability=ALL"] ==>
              l in Split(RenderSheet(prose, w, port, origin), '\n')
  {
    SheetIsSplit(prose, w, port, origin);
    SheetInBlocks(prose, w, port, origin);
  }
}
