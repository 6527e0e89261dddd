/** The sheet of one managed service, written line by line, and the readings made of it afterwards. */
module Sheets {
  import opened Wrappers
  import opened Placements
  import opened Lines
  import opened Quoting

  const FIRST_UNPRIVILEGED_PORT := 1024
  const PUBLISHED := "PublishPort=127.0.0.1:"
  const IMAGE := "Image="

  function VolumeLine(m: VolumeMount): string { "Volume=" + m.host + ":" + m.container + ":rw" }

  function SettingLine(setting: string): string { "Environment=" + EnvironmentLine(setting) }

  function ScratchLine(path: string): string { "Tmpfs=" + path + ":rw,mode=1777" }

  function VolumeLines(volumes: seq<VolumeMount>): seq<string> {
    seq(|volumes|, i requires 0 <= i < |volumes| => VolumeLine(volumes[i]))
  }

  function EnvironmentLines(environment: seq<string>): seq<string> {
    seq(|environment|, i requires 0 <= i < |environment| => SettingLine(environment[i]))
  }

  function ScratchLines(paths: seq<string>): seq<string> {
    seq(|paths|, i requires 0 <= i < |paths| => ScratchLine(paths[i]))
  }

  function OriginLines(w: Placement, origin: string): seq<string> {
    if w.originEnvironmentPrefix == "" then [] else [SettingLine(w.originEnvironmentPrefix + origin)]
  }

  function SecretLines(w: Placement): seq<string> {
    if w.BearsSecrets() then ["EnvironmentFile=" + w.EnvironmentFilePath()] else []
  }

  function LowPortLines(w: Placement): seq<string> {
    if w.containerPort < FIRST_UNPRIVILEGED_PORT then ["Sysctl=net.ipv4.ip_unprivileged_port_start=0"] else []
  }

  /** Up to the image, up to the port, and the port itself. */
  function HeadLines(prose: seq<string>, w: Placement): seq<string> { prose + ["[Unit]", "Description=" + w.description, "", "[Container]"] }

  function ImageLine(w: Placement): string { IMAGE + w.image }

  function NameLine(w: Placement): string { "ContainerName=" + w.containerName }

  function PublishLine(w: Placement, port: int): string { PUBLISHED + (Decimal(port) + ":" + Decimal(w.containerPort)) }

  /** Everything after the published port, to the end of the sheet. */
  function TailLines(w: Placement, origin: string): seq<string> {
    CONTROLS + (VolumeLines(w.volumes) + (EnvironmentLines(w.environment) + (OriginLines(w, origin) + (SecretLines(w)
      + (ScratchLines(w.writablePaths) + (LowPortLines(w) + INSTALLATION))))))
  }

  const CONTROLS := ["Pull=never", "ReadOnly=true", "NoNewPrivileges=true", "DropCapability=ALL"]
  const INSTALLATION := ["", "[Service]", "Restart=on-failure", "", "[Install]", "WantedBy=default.target"]

  function SheetLines(prose: seq<string>, w: Placement, port: int, origin: string): seq<string> {
    HeadLines(prose, w) + ([ImageLine(w)] + ([NameLine(w)] + ([PublishLine(w, port)] + TailLines(w, origin))))
  }

  function RenderSheet(prose: seq<string>, w: Placement, port: int, origin: string): string { Unlines(SheetLines(prose, w, port, origin)) }

  // ---- The three accumulating loops, and the sheet they are put into

  method BuildVolumes(volumes: seq<VolumeMount>) returns (data: string)
    ensures data == Unlines(VolumeLines(volumes))
  {
    var lines := VolumeLines(volumes);
    data := "";
    for n := 0 to |volumes|
      invariant data == Unlines(lines[..n])
    {
      OneMoreLine(lines, n);
      data := data + VolumeLine(volumes[n]) + "\n";
    }
    assert lines[..|lines|] == lines;
  }

  method BuildEnvironment(settings: seq<string>) returns (environment: string)
    ensures environment == Unlines(EnvironmentLines(settings))
  {
    var lines := EnvironmentLines(settings);
    environment := "";
    for n := 0 to |settings|
      invariant environment == Unlines(lines[..n])
    {
      OneMoreLine(lines, n);
      environment := environment + SettingLine(settings[n]) + "\n";
    }
    assert lines[..|lines|] == lines;
  }

  method BuildScratch(paths: seq<string>) returns (scratch: string)
    ensures scratch == Unlines(ScratchLines(paths))
  {
    var lines := ScratchLines(paths);
    scratch := "";
    for n := 0 to |paths|
      invariant scratch == Unlines(lines[..n])
    {
      OneMoreLine(lines, n);
      scratch := scratch + ScratchLine(paths[n]) + "\n";
    }
    assert lines[..|lines|] == lines;
  }

  lemma TailText(w: Placement, origin: string)
    ensures Unlines(TailLines(w, origin)) ==
      Unlines(CONTROLS) + (Unlines(VolumeLines(w.volumes)) + (Unlines(EnvironmentLines(w.environment)) + (Unlines(OriginLines(w, origin))
        + (Unlines(SecretLines(w)) + (Unlines(ScratchLines(w.writablePaths)) + (Unlines(LowPortLines(w)) + Unlines(INSTALLATION)))))))
  {
    var g := LowPortLines(w) + INSTALLATION;
    UnlinesOfBoth(LowPortLines(w), INSTALLATION);
    UnlinesOfBoth(ScratchLines(w.writablePaths), g);
    var f := ScratchLines(w.writablePaths) + g;
    UnlinesOfBoth(SecretLines(w), f);
    var e := SecretLines(w) + f;
    UnlinesOfBoth(OriginLines(w, origin), e);
    var d := OriginLines(w, origin) + e;
    UnlinesOfBoth(EnvironmentLines(w.environment), d);
    var c := EnvironmentLines(w.environment) + d;
    UnlinesOfBoth(VolumeLines(w.volumes), c);
    UnlinesOfBoth(CONTROLS, VolumeLines(w.volumes) + c);
  }

  lemma SheetText(prose: seq<string>, w: Placement, port: int, origin: string)
    ensures RenderSheet(prose, w, port, origin) ==
      Unlines(HeadLines(prose, w)) + (Unlines([ImageLine(w)] + ([NameLine(w)] + [PublishLine(w, port)])) + Unlines(TailLines(w, origin)))
  {
    var names := [ImageLine(w)] + ([NameLine(w)] + [PublishLine(w, port)]);
    Regrouped([ImageLine(w)], [NameLine(w)] + [PublishLine(w, port)], TailLines(w, origin));
    Regrouped([NameLine(w)], [PublishLine(w, port)], TailLines(w, origin));
    UnlinesOfBoth(names, TailLines(w, origin));
    UnlinesOfBoth(HeadLines(prose, w), names + TailLines(w, origin));
  }

  /** renderSheet: the same bytes, whatever blocks the placement leaves out. */
  method BuildSheet(prose: seq<string>, w: Placement, port: int, origin: string) returns (sheet: string)
    ensures sheet == RenderSheet(prose, w, port, origin)
  {
    var data := BuildVolumes(w.volumes);
    var environment := BuildEnvironment(w.environment);
    var scratch := BuildScratch(w.writablePaths);
    var origins, secrets, lowPorts := Unlines(OriginLines(w, origin)), Unlines(SecretLines(w)), Unlines(LowPortLines(w));
    TailText(w, origin);
    SheetText(prose, w, port, origin);
    var tail := Unlines(CONTROLS) + (data + (environment + (origins + (secrets + (scratch + (lowPorts + Unlines(INSTALLATION)))))));
    sheet := Unlines(HeadLines(prose, w)) + (Unlines([ImageLine(w)] + ([NameLine(w)] + [PublishLine(w, port)])) + tail);
  }

  // ---- What is read back

  /** publishedLoopbackPort, over the lines the sheet is split into. */
  function PortAmong(lines: seq<string>): Option<int> {
    if lines == [] then None
    else if !(PUBLISHED <= Trim(lines[0])) then PortAmong(lines[1..])
    else
      var fields := Split(Trim(lines[0])[|PUBLISHED|..], ':');
      if |fields| != 2 then None else Atoi(fields[0])
  }

  function PublishedLoopbackPort(sheet: string): Option<int> { PortAmong(Split(sheet, '\n')) }

  /** The image the generator reads from the sheet: what a container started from it runs. */
  function ImageAmong(lines: seq<string>): string {
    if lines == [] then ""
    else if IMAGE <= lines[0] then lines[0][|IMAGE|..]
    else ImageAmong(lines[1..])
  }

  function ImageOf(sheet: string): string { ImageAmong(Split(sheet, '\n')) }

  /** The scan of publishedLoopbackPort: the first line that publishes decides, whatever it holds. */
  method ReadPublishedPort(sheet: string) returns (port: Option<int>)
    ensures port == PublishedLoopbackPort(sheet)
  {
    var lines := Split(sheet, '\n');
    for n := 0 to |lines|
      invariant PortAmong(lines) == PortAmong(lines[n..])
    {
      var trimmed := Trim(lines[n]);
      assert lines[n..][1..] == lines[n + 1..];
      if PUBLISHED <= trimmed {
        var fields := Split(trimmed[|PUBLISHED|..], ':');
        return if |fields| != 2 then None else Atoi(fields[0]);
      }
    }
    port := None;
  }

  /** No line before it publishes a port, whatever the placement says of itself. */
  predicate OpensElsewhere(line: string, c: char) { line == "" || (!IsSpace(line[0]) && line[0] != c) }

  lemma {:induction false} PortPast(lines: seq<string>, rest: seq<string>)
    requires forall l :: l in lines ==> OpensElsewhere(l, 'P')
    ensures PortAmong(lines + rest) == PortAmong(rest)
    decreases |lines|
  {
    if lines == [] {
      assert lines + rest == rest;
    } else {
      assert lines[0] in lines;
      assert PUBLISHED[0] == 'P';
      TrimmedElsewhere(lines[0], PUBLISHED);
      assert (lines + rest)[1..] == lines[1..] + rest;
      PortPast(lines[1..], rest);
    }
  }

  lemma {:induction false} ImagePast(lines: seq<string>, rest: seq<string>)
    requires forall l :: l in lines ==> OpensElsewhere(l, 'I')
    ensures ImageAmong(lines + rest) == ImageAmong(rest)
    decreases |lines|
  {
    if lines == [] {
      assert lines + rest == rest;
    } else {
      assert lines[0] in lines;
      assert IMAGE[0] == 'I';
      assert (lines + rest)[1..] == lines[1..] + rest;
      ImagePast(lines[1..], rest);
    }
  }

  lemma TwoPortsAreTwoFields(port: int, inner: int)
    ensures Split(Decimal(port) + ":" + Decimal(inner), ':') == [Decimal(port), Decimal(inner)]
  {
    AtoiOfDecimal(port);
    AtoiOfDecimal(inner);
    assert Decimal(port) + ":" + Decimal(inner) == Decimal(port) + [':'] + Decimal(inner);
    SplitAtTheFirst(Decimal(port), ':', Decimal(inner));
    NothingToSplit(Decimal(inner), ':');
  }

  lemma PublishLineIsRead(w: Placement, port: int, rest: seq<string>)
    requires LEAST <= port <= GREATEST
    ensures PortAmong([PublishLine(w, port)] + rest) == Some(port)
  {
    var line := PublishLine(w, port);
    PublishLineIsTight(w, port);
    TrimTight(line);
    TwoPortsAreTwoFields(port, w.containerPort);
    AtoiOfDecimal(port);
    var lines := [line] + rest;
    assert lines[0] == line && PUBLISHED <= line;
    assert line[|PUBLISHED|..] == Decimal(port) + ":" + Decimal(w.containerPort);
  }

  lemma PublishLineIsTight(w: Placement, port: int)
    ensures Tight(PublishLine(w, port)) && OneLine(PublishLine(w, port))
  {
    PublishedIsOneLine();
    PortsAreOneLine(port, w.containerPort);
    Composed(PUBLISHED, Decimal(port) + ":" + Decimal(w.containerPort));
  }

  lemma PublishedIsOneLine()
    ensures OneLine(PUBLISHED) && PUBLISHED != "" && PUBLISHED[0] == 'P'
  {
  }

  lemma PortsAreOneLine(port: int, containerPort: int)
    ensures var values := Decimal(port) + ":" + Decimal(containerPort);
            OneLine(values) && values != "" && !IsSpace(values[|values| - 1])
  {
    AtoiOfDecimal(port);
    AtoiOfDecimal(containerPort);
    OneLineOfBoth(Decimal(port), ":");
    OneLineOfBoth(Decimal(port) + ":", Decimal(containerPort));
    EndsAsTheSecond(Decimal(port) + ":", Decimal(containerPort));
  }

  lemma EndsAsTheSecond(a: string, b: string)
    requires b != ""
    ensures (a + b)[|a + b| - 1] == b[|b| - 1]
  {
  }

  /** Whatever follows, the lines a text opens with decide what is read of it. */
  lemma LinesDecide(first: seq<string>, line: string, tail: seq<string>)
    requires AllOneLine(first) && OneLine(line)
    ensures Split(Unlines(first + ([line] + tail)), '\n') == first + ([line] + Split(Unlines(tail), '\n'))
  {
    Regrouped(first, [line], tail);
    UnlinesOfBoth(first + [line], tail);
    SplitLines(first + [line], Unlines(tail));
    Regrouped(first, [line], Split(Unlines(tail), '\n'));
  }

  lemma ThePortIsRead(first: seq<string>, w: Placement, port: int, tail: seq<string>)
    requires AllOneLine(first) && forall l :: l in first ==> OpensElsewhere(l, 'P')
    requires LEAST <= port <= GREATEST
    ensures PublishedLoopbackPort(Unlines(first + ([PublishLine(w, port)] + tail))) == Some(port)
  {
    PublishLineIsTight(w, port);
    LinesDecide(first, PublishLine(w, port), tail);
    PortPast(first, [PublishLine(w, port)] + Split(Unlines(tail), '\n'));
    PublishLineIsRead(w, port, Split(Unlines(tail), '\n'));
  }

  lemma TheImageIsRead(first: seq<string>, image: string, tail: seq<string>)
    requires AllOneLine(first) && OneLine(image) && forall l :: l in first ==> OpensElsewhere(l, 'I')
    ensures ImageOf(Unlines(first + ([IMAGE + image] + tail))) == image
  {
    assert OneLine(IMAGE);
    var line := IMAGE + image;
    LinesDecide(first, line, tail);
    ImagePast(first, [line] + Split(Unlines(tail), '\n'));
    assert ([line] + Split(Unlines(tail), '\n'))[0] == line;
  }

  lemma HeadOpensElsewhere(prose: seq<string>, w: Placement, c: char)
    requires Commentary(prose) && OneLine(w.description) && (c == 'P' || c == 'I')
    ensures AllOneLine(HeadLines(prose, w)) && forall l :: l in HeadLines(prose, w) ==> OpensElsewhere(l, c)
  {
    assert OneLine("Description=") && OneLine("[Unit]") && OneLine("[Container]");
  }

  lemma NamesOpenElsewhere(w: Placement)
    requires OneLine(w.image) && OneLine(w.containerName)
    ensures OneLine(ImageLine(w)) && OneLine(NameLine(w)) && OpensElsewhere(ImageLine(w), 'P') && OpensElsewhere(NameLine(w), 'P')
  {
    assert OneLine(IMAGE) && OneLine("ContainerName=") && IMAGE[0] == 'I';
  }

  /** The port an approved plan put in a sheet is the port that sheet is read to publish, as long as
      the three values that stand before it hold no line end. */
  lemma PublishedPortReadsBack(prose: seq<string>, w: Placement, port: int, origin: string)
    requires Commentary(prose) && LEAST <= port <= GREATEST
    requires OneLine(w.description) && OneLine(w.image) && OneLine(w.containerName)
    ensures PublishedLoopbackPort(RenderSheet(prose, w, port, origin)) == Some(port)
  {
    var names := [ImageLine(w)] + [NameLine(w)];
    var tail := TailLines(w, origin);
    HeadOpensElsewhere(prose, w, 'P');
    NamesOpenElsewhere(w);
    ThePortIsRead(HeadLines(prose, w) + names, w, port, tail);
    Regrouped(HeadLines(prose, w), names, [PublishLine(w, port)] + tail);
    Regrouped([ImageLine(w)], [NameLine(w)], [PublishLine(w, port)] + tail);
  }

  /** A container started from a sheet runs the image the placement pins. */
  lemma ImageReadsBack(prose: seq<string>, w: Placement, port: int, origin: string)
    requires Commentary(prose) && OneLine(w.description) && OneLine(w.image)
    ensures ImageOf(RenderSheet(prose, w, port, origin)) == w.image
  {
    HeadOpensElsewhere(prose, w, 'I');
    TheImageIsRead(HeadLines(prose, w), w.image, [NameLine(w)] + ([PublishLine(w, port)] + TailLines(w, origin)));
  }
}
