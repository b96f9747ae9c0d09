/**
 The plugin's operations on a Cloud Foundry CLI connection (utils/utils.go):
 each is a pure function of the runner's replies. Lookups interpret the CLI's
 text output; pass-through operations forward an argument vector; the route
 detachment issues one DELETE per route and stops at the first failure.
 */
module Utils {

  import opened Optional
  import opened GoStrings
  import opened Platform
  import opened Commands

  /** The word the CLI prints on the first output line when a lookup fails. */
  const FailedMarker := "FAILED"
  /** `cf target` prints the space on line index 4, after this label. */
  const TargetSpaceLine := 4
  const SpaceLabel := "Space:"
  const NoSpaceSentinel := "No space targeted"
  /** `cf domains` prints the first domain on line index 2. */
  const DomainLine := 2
  const SharedTag := "shared"
  const OwnedTag := "owned"
  /** The literal the summary must contain before it is decoded; note the
      space after the colon. */
  const HealthCheckMarker := "\"health_check_type\": "

  /** The guid lookups' shared reading of the reply: a failed command whose
      first line carries the FAILED marker becomes `notFound`, any other
      failure is passed through, and success yields the trimmed first line. */
  function GuidLookup(reply: Reply, notFound: Error): Exec<Lookup> {
    if |reply.lines| == 0 then IndexPanic
    else if reply.failure.Some? then
      if Contains(reply.lines[0], FailedMarker) then Done(Lookup("", Some(notFound), reply.lines))
      else Done(Lookup("", Some(Transport(reply.failure.value)), reply.lines))
    else Done(Lookup(TrimSpace(reply.lines[0]), None, []))
  }

  /** GetAppGuid: runs `app <name> --guid`. */
  function GetAppGuid(run: Runner, appName: string): (r: Exec<Lookup>)
    ensures var reply := run(AppGuidCommand(appName));
      r.IndexPanic? <==> |reply.lines| == 0
    ensures var reply := run(AppGuidCommand(appName));
      r.Done? ==> (r.result.err.None? <==> reply.failure.None?)
    ensures var reply := run(AppGuidCommand(appName));
      r.Done? ==> (r.result.err == Some(AppNotFound(appName))
                   <==> reply.failure.Some? && Contains(reply.lines[0], FailedMarker))
    ensures var reply := run(AppGuidCommand(appName));
      r.Done? && reply.failure.Some? && !Contains(reply.lines[0], FailedMarker) ==>
          r.result.err == Some(Transport(reply.failure.value))
    ensures var reply := run(AppGuidCommand(appName));
      r.Done? && r.result.err.Some? ==> r.result.value == "" && r.result.diagnostics == reply.lines
    ensures var reply := run(AppGuidCommand(appName));
      r.Done? && r.result.err.None? ==>
        && r.result.diagnostics == []
        && IsTrimmed(r.result.value)
        && r.result.value == TrimSpace(reply.lines[0])
  {
    GuidLookup(run(AppGuidCommand(appName)), AppNotFound(appName))
  }

  /** GetSpaceGuid: runs `space <name> --guid`; same reading, its own error. */
  function GetSpaceGuid(run: Runner, spaceName: string): (r: Exec<Lookup>)
    ensures var reply := run(SpaceGuidCommand(spaceName));
      r.IndexPanic? <==> |reply.lines| == 0
    ensures var reply := run(SpaceGuidCommand(spaceName));
      r.Done? ==> (r.result.err.None? <==> reply.failure.None?)
    ensures var reply := run(SpaceGuidCommand(spaceName));
      r.Done? ==> (r.result.err == Some(SpaceNotFound)
                   <==> reply.failure.Some? && Contains(reply.lines[0], FailedMarker))
    ensures var reply := run(SpaceGuidCommand(spaceName));
      r.Done? && reply.failure.Some? && !Contains(reply.lines[0], FailedMarker) ==>
          r.result.err == Some(Transport(reply.failure.value))
    ensures var reply := run(SpaceGuidCommand(spaceName));
      r.Done? && r.result.err.Some? ==> r.result.value == "" && r.result.diagnostics == reply.lines
    ensures var reply := run(SpaceGuidCommand(spaceName));
      r.Done? && r.result.err.None? ==>
        && r.result.diagnostics == []
        && IsTrimmed(r.result.value)
        && r.result.value == TrimSpace(reply.lines[0])
  {
    GuidLookup(run(SpaceGuidCommand(spaceName)), SpaceNotFound)
  }

  /** Line index 4 of `cf target` names a space. */
  predicate NamesSpace(line: string) {
    HasPrefix(line, SpaceLabel) && !Contains(line, NoSpaceSentinel)
  }

  /** The space name on a `Space:` line, as the plugin cuts it out: trim the
      line, drop the label, trim again. */
  function SpaceName(line: string): (name: string)
    requires HasPrefix(line, SpaceLabel)
    ensures IsTrimmed(name)
    ensures name == TrimSpace(line[|SpaceLabel|..])
  {
    SpaceNameIsTrimmedRest(line);
    TrimSpace(TrimPrefix(TrimSpace(line), SpaceLabel))
  }

  /** The text after the label, padded by white space on both sides, is what
      SpaceName's three steps leave. */
  lemma SpaceNameIsTrimmedRest(line: string)
    requires HasPrefix(line, SpaceLabel)
    ensures TrimSpace(TrimPrefix(TrimSpace(line), SpaceLabel)) == TrimSpace(line[|SpaceLabel|..])
  {
    var rest := line[|SpaceLabel|..];
    assert line == SpaceLabel + rest;
    var pre, post := TrimSpaceSplit(rest);
    var core := TrimSpace(rest);
    if |core| == 0 {
      assert rest == pre + post;
      BlankAfterLabel(pre + post);
    } else {
      TextAfterLabel(pre, core, post);
    }
  }

  lemma BlankAfterLabel(pad: string)
    requires AllSpace(pad)
    ensures TrimSpace(TrimPrefix(TrimSpace(SpaceLabel + pad), SpaceLabel)) == ""
  {
    TrimSpaceOfRightPadded(SpaceLabel, pad);
    EmptyRight(SpaceLabel);
    TrimPrefixOfPrepended(SpaceLabel, "");
    TrimSpaceOfRightPadded("", "");
    EmptyLeft("");
  }

  lemma TextAfterLabel(pre: string, core: string, post: string)
    requires AllSpace(pre) && AllSpace(post) && IsTrimmed(core) && |core| > 0
    ensures TrimSpace(TrimPrefix(TrimSpace(SpaceLabel + (pre + core + post)), SpaceLabel)) == core
  {
    LabelledLineTrims(pre, core, post);
    TrimPrefixOfPrepended(SpaceLabel, pre + core);
    TrimSpaceOfLeftPadded(pre, core);
  }

  lemma LabelledLineTrims(pre: string, core: string, post: string)
    requires AllSpace(post) && IsTrimmed(core) && |core| > 0
    ensures TrimSpace(SpaceLabel + (pre + core + post)) == SpaceLabel + (pre + core)
  {
    var body := SpaceLabel + (pre + core);
    assert SpaceLabel + (pre + core + post) == body + post;
    assert IsTrimmed(body) by {
      assert body[|body| - 1] == core[|core| - 1];
      assert body[0] == 'S';
    }
    TrimSpaceOfRightPadded(body, post);
  }

  /** GetTargetSpace: runs `target` and reads the space from line index 4. */
  function GetTargetSpace(run: Runner): (r: Lookup)
    ensures var reply := run(TargetCommand());
      r.err.None? <==> reply.failure.None? && |reply.lines| > TargetSpaceLine
                        && NamesSpace(reply.lines[TargetSpaceLine])
    ensures var reply := run(TargetCommand());
      r.err.None? ==> r.diagnostics == [] && IsTrimmed(r.value)
                      && r.value == TrimSpace(reply.lines[TargetSpaceLine][|SpaceLabel|..])
    ensures var reply := run(TargetCommand());
      reply.failure.Some? ==> r == Lookup("", Some(Transport(reply.failure.value)), reply.lines)
    ensures var reply := run(TargetCommand());
      reply.failure.None? && r.err.Some? ==> r == Lookup("", Some(NotTargeted), reply.lines)
  {
    var reply := run(TargetCommand());
    if reply.failure.Some? then Lookup("", Some(Transport(reply.failure.value)), reply.lines)
    else if |reply.lines| < 5 then Lookup("", Some(NotTargeted), reply.lines)
    else if NamesSpace(reply.lines[TargetSpaceLine]) then Lookup(SpaceName(reply.lines[TargetSpaceLine]), None, [])
    else Lookup("", Some(NotTargeted), reply.lines)
  }

  /** The domain on a `cf domains` line: trim it, drop one trailing "shared",
      then one trailing "owned", trim again. */
  function DomainName(line: string): (d: string)
    ensures IsTrimmed(d)
  {
    TrimSpace(StripTags(TrimSpace(line)))
  }

  /** One trailing "shared", then one trailing "owned". */
  function StripTags(s: string): string {
    TrimSuffix(TrimSuffix(s, SharedTag), OwnedTag)
  }

  /** FindDomain: runs `domains` and reads the domain from line index 2. */
  function FindDomain(run: Runner): (r: Lookup)
    ensures var reply := run(DomainsCommand());
      r.err.None? <==> reply.failure.None? && |reply.lines| > DomainLine
    ensures var reply := run(DomainsCommand());
      r.err.None? ==> r.diagnostics == [] && IsTrimmed(r.value)
                      && r.value == DomainName(reply.lines[DomainLine])
    ensures var reply := run(DomainsCommand());
      reply.failure.Some? ==> r == Lookup("", Some(Transport(reply.failure.value)), reply.lines)
    ensures var reply := run(DomainsCommand());
      reply.failure.None? && |reply.lines| <= DomainLine ==>
          r == Lookup("", Some(NoDomainAvailable), reply.lines)
  {
    var reply := run(DomainsCommand());
    if reply.failure.Some? then Lookup("", Some(Transport(reply.failure.value)), reply.lines)
    else if |reply.lines| < 3 then Lookup("", Some(NoDomainAvailable), reply.lines)
    else Lookup(DomainName(reply.lines[DomainLine]), None, [])
  }

  /** CreateRoute: sends `create-route <space> <domain> -n <host>` and returns
      the reply untouched. */
  function CreateRoute(run: Runner, space: string, domain: string, host: string): (r: Output)
    ensures var c := CreateRouteCommand(space, domain, host);
      && c.channel == Silent && |c.args| == 5 && c.args[0] == "create-route"
      && c.args[1] == space && c.args[2] == domain && c.args[3] == "-n" && c.args[4] == host
      && r.lines == run(c).lines && (r.err.None? <==> run(c).failure.None?)
      && (run(c).failure.Some? ==> r.err == Some(Transport(run(c).failure.value)))
  {
    Forwarded(run(CreateRouteCommand(space, domain, host)))
  }

  /** MapRoute: sends `map-route <app> <domain> -n <host>` and returns the reply
      untouched. */
  function MapRoute(run: Runner, appName: string, domain: string, host: string): (r: Output)
    ensures var c := MapRouteCommand(appName, domain, host);
      && c.channel == Silent && |c.args| == 5 && c.args[0] == "map-route"
      && c.args[1] == appName && c.args[2] == domain && c.args[3] == "-n" && c.args[4] == host
      && r.lines == run(c).lines && (r.err.None? <==> run(c).failure.None?)
      && (run(c).failure.Some? ==> r.err == Some(Transport(run(c).failure.value)))
  {
    Forwarded(run(MapRouteCommand(appName, domain, host)))
  }

  /** StartApp: sends `start <app>` with terminal output and returns the reply
      untouched. */
  function StartApp(run: Runner, appName: string): (r: Output)
    ensures var c := StartCommand(appName);
      && c.channel == Terminal && c.args == ["start", appName]
      && r.lines == run(c).lines && (r.err.None? <==> run(c).failure.None?)
      && (run(c).failure.Some? ==> r.err == Some(Transport(run(c).failure.value)))
  {
    Forwarded(run(StartCommand(appName)))
  }

  /** UpdateApp: PUTs a one-member JSON body to the application resource. The
      body reads back as the requested update whenever neither string needs
      escaping. */
  function UpdateApp(run: Runner, appGuid: string, field: string, value: string): (r: Output)
    ensures var c := UpdateAppCommand(appGuid, field, value);
      && c.channel == Silent && |c.args| == 6
      && c.args[..5] == ["curl", "/v2/apps/" + appGuid, "-X", "PUT", "-d"]
      && (PlainJsonText(field) && PlainJsonText(value) ==> ReadFlatObject(c.args[5]) == Some((field, value)))
      && r.lines == run(c).lines && (r.err.None? <==> run(c).failure.None?)
      && (run(c).failure.Some? ==> r.err == Some(Transport(run(c).failure.value)))
  {
    UpdateBodyRoundTrip(field, value);
    Forwarded(run(UpdateAppCommand(appGuid, field, value)))
  }

  /** GetHealthCheck: fetches the summary and, only if its first line holds the
      literal health-check marker, decodes it and returns the type. */
  function GetHealthCheck(run: Runner, decode: Decoder, appGuid: string): (r: Exec<Lookup>)
    ensures var reply := run(SummaryCommand(appGuid));
      r.IndexPanic? <==> reply.failure.None? && |reply.lines| == 0
    ensures var reply := run(SummaryCommand(appGuid));
      r.Done? && r.result.err.None? <==>
          reply.failure.None? && |reply.lines| > 0 && Contains(reply.lines[0], HealthCheckMarker)
             && decode(reply.lines[0]).Decoded?
    ensures var reply := run(SummaryCommand(appGuid));
      r.Done? && r.result.err.None? ==>
        r.result.diagnostics == [] && r.result.value == decode(reply.lines[0]).summary.healthCheckType
    ensures var reply := run(SummaryCommand(appGuid));
      reply.failure.Some? ==> r == Done(Lookup("", Some(Transport(reply.failure.value)), reply.lines))
    ensures var reply := run(SummaryCommand(appGuid));
      reply.failure.None? && |reply.lines| > 0 && !Contains(reply.lines[0], HealthCheckMarker) ==>
          r == Done(Lookup("", Some(HealthCheckFieldMissing), reply.lines))
    ensures var reply := run(SummaryCommand(appGuid));
      reply.failure.None? && |reply.lines| > 0 && Contains(reply.lines[0], HealthCheckMarker)
      && decode(reply.lines[0]).Malformed? ==>
          r == Done(Lookup("", Some(DecodeFailed(decode(reply.lines[0]).reason)), reply.lines))
  {
    var reply := run(SummaryCommand(appGuid));
    if reply.failure.Some? then Done(Lookup("", Some(Transport(reply.failure.value)), reply.lines))
    else if |reply.lines| == 0 then IndexPanic
    else if !Contains(reply.lines[0], HealthCheckMarker) then
      Done(Lookup("", Some(HealthCheckFieldMissing), reply.lines))
    else match decode(reply.lines[0])
      case Malformed(reason) => Done(Lookup("", Some(DecodeFailed(reason)), reply.lines))
      case Decoded(summary) => Done(Lookup(summary.healthCheckType, None, []))
  }

  /** The loop of DetachAppRoutes: one DELETE per route, in order, stopping at
      the first that fails. Returns what the operation returns and the DELETEs
      it issued. Nothing already deleted is restored. */
  function DetachEach(run: Runner, routes: seq<Route>, appGuid: string): (r: (Output, seq<Invocation>))
    ensures |r.1| <= |routes|
    ensures r.1 == DeleteCommands(routes, appGuid)[..|r.1|]
    ensures forall k :: 0 <= k < |r.1| - 1 ==> run(r.1[k]).failure.None?
    ensures r.0.err.None? <==> |r.1| == |routes| && forall k :: 0 <= k < |r.1| ==> run(r.1[k]).failure.None?
    ensures r.0.err.None? ==> r.0.lines == []
    ensures r.0.err.Some? ==> |r.1| > 0 && run(r.1[|r.1| - 1]).failure.Some?
                              && r.0 == Forwarded(run(r.1[|r.1| - 1]))
    decreases |routes|
  {
    if |routes| == 0 then (Output([], None), [])
    else
      var c := DeleteRouteCommand(routes[0].guid, appGuid);
      var reply := run(c);
      if reply.failure.Some? then (Forwarded(reply), [c])
      else
        var rest := DetachEach(run, routes[1..], appGuid);
        DeleteCommandsCons(routes, appGuid);
        PrefixCons(c, DeleteCommands(routes[1..], appGuid), rest.1);
        (rest.0, [c] + rest.1)
  }

  lemma DeleteCommandsCons(routes: seq<Route>, appGuid: string)
    requires |routes| > 0
    ensures DeleteCommands(routes, appGuid)
            == [DeleteRouteCommand(routes[0].guid, appGuid)] + DeleteCommands(routes[1..], appGuid)
  {
  }

  lemma PrefixCons<T>(c: T, rest: seq<T>, t: seq<T>)
    requires |t| <= |rest| && t == rest[..|t|]
    ensures [c] + t == ([c] + rest)[..|t| + 1]
  {
  }

  /** The outcome of DetachAppRoutes together with every command it issued. */
  datatype Detach = Detach(outcome: Exec<Output>, issued: seq<Invocation>)

  /** DetachAppRoutes: fetches the summary, decodes its routes and detaches each. */
  function DetachAppRoutes(run: Runner, decode: Decoder, appGuid: string): (r: Detach)
    ensures |r.issued| >= 1 && r.issued[0] == SummaryCommand(appGuid)
    ensures var reply := run(SummaryCommand(appGuid));
      r.outcome.IndexPanic? <==> reply.failure.None? && |reply.lines| == 0
    ensures var reply := run(SummaryCommand(appGuid));
      reply.failure.Some? ==> r == Detach(Done(Forwarded(reply)), [SummaryCommand(appGuid)])
    ensures var reply := run(SummaryCommand(appGuid));
      reply.failure.None? && |reply.lines| > 0 && decode(reply.lines[0]).Malformed? ==>
          r == Detach(Done(Output(reply.lines, Some(DecodeFailed(decode(reply.lines[0]).reason)))),
                        [SummaryCommand(appGuid)])
    ensures var reply := run(SummaryCommand(appGuid));
      reply.failure.None? && |reply.lines| > 0 && decode(reply.lines[0]).Decoded? ==>
        var detached := DetachEach(run, decode(reply.lines[0]).summary.routes, appGuid);
        r == Detach(Done(detached.0), [SummaryCommand(appGuid)] + detached.1)
  {
    var summaryCommand := SummaryCommand(appGuid);
    var reply := run(summaryCommand);
    if reply.failure.Some? then Detach(Done(Forwarded(reply)), [summaryCommand])
    else if |reply.lines| == 0 then Detach(IndexPanic, [summaryCommand])
    else match decode(reply.lines[0])
      case Malformed(reason) => Detach(Done(Output(reply.lines, Some(DecodeFailed(reason)))), [summaryCommand])
      case Decoded(summary) =>
        var detached := DetachEach(run, summary.routes, appGuid);
        Detach(Done(detached.0), [summaryCommand] + detached.1)
  }
}
