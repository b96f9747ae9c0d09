/**
 Properties of the plugin's operations that relate several calls, or that
 pin an operation's result down against an independent description of the
 CLI's output.
 */
module UtilsProperties {

  import opened Optional
  import opened GoStrings
  import opened Platform
  import opened Commands
  import opened Utils

  // ---------------------------------------------------------------------------
  // Domain listing

  /** A string ending in white space does not end in a tag. */
  lemma NoTagAfterSpace(s: string, tag: string)
    requires |s| > 0 && IsSpace(s[|s| - 1])
    requires tag == SharedTag || tag == OwnedTag
    ensures !HasSuffix(s, tag)
  {
    if |tag| <= |s| {
      assert s[|s| - |tag|..][|tag| - 1] == s[|s| - 1];
      assert !IsSpace(tag[|tag| - 1]);
    }
  }

  /** "owned" is not a suffix that ends in "shared". */
  lemma OwnedIsNotShared(t: string)
    ensures !HasSuffix(t + OwnedTag, SharedTag)
  {
    var s := t + OwnedTag;
    if |SharedTag| <= |s| {
      assert s[|s| - 6..][3] == s[|s| - 3] == 'n';
    }
  }

  /** StripTags removes the tag after the gap and nothing else. */
  lemma StripTagAfterGap(d: string, gap: string, tag: string)
    requires |gap| > 0 && AllSpace(gap)
    requires tag == SharedTag || tag == OwnedTag
    ensures StripTags(d + gap + tag) == d + gap
  {
    var named := d + gap;
    assert named[|named| - 1] == gap[|gap| - 1];
    NoTagAfterSpace(named, OwnedTag);
    TrimSuffixOfAppended(named, tag);
    if tag == OwnedTag {
      OwnedIsNotShared(named);
    }
  }

  /** A tag on its own strips to nothing. */
  lemma StripBareTag(tag: string)
    requires tag == SharedTag || tag == OwnedTag
    ensures StripTags(tag) == ""
  {
    EmptyLeft(tag);
    TrimSuffixOfAppended("", tag);
    if tag == OwnedTag {
      OwnedIsNotShared("");
    } else {
      TrimSuffixOfAppended("", OwnedTag);
      assert !HasSuffix("", OwnedTag);
    }
  }

  /** A tagged line trims to the domain, the gap and the tag. */
  lemma TaggedLineTrims(pre: string, d: string, gap: string, tag: string, post: string)
    requires AllSpace(pre) && AllSpace(post) && AllSpace(gap)
    requires IsTrimmed(d) && |d| > 0
    requires tag == SharedTag || tag == OwnedTag
    ensures TrimSpace(pre + d + gap + tag + post) == d + gap + tag
  {
    var core := d + gap + tag;
    assert pre + d + gap + tag + post == pre + core + post;
    assert core[0] == d[0];
    assert core[|core| - 1] == 'd';
    TrimSpaceOfPadded(pre, core, post);
  }

  /** A tag with no domain before it trims to the tag alone. */
  lemma BareTagTrims(pre: string, gap: string, tag: string, post: string)
    requires AllSpace(pre) && AllSpace(post) && AllSpace(gap)
    requires tag == SharedTag || tag == OwnedTag
    ensures TrimSpace(pre + "" + gap + tag + post) == tag
  {
    assert pre + "" + gap + tag + post == (pre + gap) + tag + post;
    assert AllSpace(pre + gap);
    TrimSpaceOfPadded(pre + gap, tag, post);
  }

  /** A `cf domains` line of the form `<domain> <gap> shared|owned`, padded by
      white space, yields exactly the domain; the example line
      "example.com   shared" yields "example.com". */
  lemma DomainOfTaggedLine(pre: string, d: string, gap: string, tag: string, post: string)
    requires AllSpace(pre) && AllSpace(post) && AllSpace(gap) && |gap| > 0
    requires IsTrimmed(d)
    requires tag == SharedTag || tag == OwnedTag
    ensures DomainName(pre + d + gap + tag + post) == d
  {
    if |d| == 0 {
      BareTagTrims(pre, gap, tag, post);
      StripBareTag(tag);
      TrimSpaceOfRightPadded("", "");
      EmptyLeft("");
    } else {
      TaggedLineTrims(pre, d, gap, tag, post);
      StripTagAfterGap(d, gap, tag);
      TrimSpaceOfRightPadded(d, gap);
    }
  }

  /** A line with no tag after the domain yields the domain, unless the domain
      itself ends in one of the tag words. */
  lemma DomainOfUntaggedLine(pre: string, d: string, post: string)
    requires AllSpace(pre) && AllSpace(post) && IsTrimmed(d)
    requires !HasSuffix(d, SharedTag) && !HasSuffix(d, OwnedTag)
    ensures DomainName(pre + d + post) == d
  {
    TrimSpaceOfPadded(pre, d, post);
    TrimSpaceIdempotent(d);
  }

  /** The domain listing of the example: line index 2 is "example.com   shared". */
  lemma DomainExample(run: Runner)
    requires run(DomainsCommand()) == Reply(["", "", "example.com   shared"], None)
    ensures FindDomain(run) == Lookup("example.com", None, [])
  {
    var d := "example.com";
    assert IsTrimmed(d);
    assert "" + d + "   " + SharedTag + "" == "example.com   shared";
    DomainOfTaggedLine("", d, "   ", SharedTag, "");
  }

  // ---------------------------------------------------------------------------
  // Target listing

  /** The target listing of the example: line index 4 is "Space:  my-space  ". */
  lemma TargetSpaceExample(run: Runner)
    requires run(TargetCommand()) == Reply(["", "", "", "", "Space:  my-space  "], None)
    ensures GetTargetSpace(run) == Lookup("my-space", None, [])
  {
    var line := "Space:  my-space  ";
    assert HasPrefix(line, SpaceLabel);
    NotContainedWithoutChar(line, NoSpaceSentinel, 0);
    assert line[|SpaceLabel|..] == "  " + "my-space" + "  ";
    TrimSpaceOfPadded("  ", "my-space", "  ");
  }

  /** Five or more lines whose line index 4 is not a `Space:` line, or names the
      sentinel, mean "not targeted", as do fewer than five lines. */
  lemma NotTargetedCases(run: Runner)
    requires run(TargetCommand()).failure.None?
    requires var lines := run(TargetCommand()).lines;
      |lines| < 5 || !HasPrefix(lines[4], SpaceLabel) || Contains(lines[4], NoSpaceSentinel)
    ensures GetTargetSpace(run) == Lookup("", Some(NotTargeted), run(TargetCommand()).lines)
  {
  }

  // ---------------------------------------------------------------------------
  // Health check

  /** The pre-check needs a space after the colon: a summary line with no space
      character at all, as compact JSON is, is reported as missing the field,
      whatever the decoder would have made of it. */
  lemma CompactSummaryFailsPreCheck(run: Runner, decode: Decoder, appGuid: string)
    requires var reply := run(SummaryCommand(appGuid));
      reply.failure.None? && |reply.lines| > 0
      && forall j :: 0 <= j < |reply.lines[0]| ==> reply.lines[0][j] != ' '
    ensures GetHealthCheck(run, decode, appGuid)
            == Done(Lookup("", Some(HealthCheckFieldMissing), run(SummaryCommand(appGuid)).lines))
  {
    assert HealthCheckMarker[20] == ' ';
    NotContainedWithoutChar(run(SummaryCommand(appGuid)).lines[0], HealthCheckMarker, 20);
  }

  /** No space character anywhere in `s`. */
  predicate NoBlank(s: string) {
    forall j :: 0 <= j < |s| ==> s[j] != ' '
  }

  lemma NoBlankConcat(a: string, b: string)
    requires NoBlank(a) && NoBlank(b)
    ensures NoBlank(a + b)
  {
  }

  /** The compact summary `{"health_check_type":"http","routes":[{"guid":"r1"},{"guid":"r2"}]}`
      (written below in four pieces) is rejected by the pre-check rather than
      read as "http". */
  lemma CompactExampleRejected(run: Runner, decode: Decoder, appGuid: string)
    requires run(SummaryCommand(appGuid))
             == Reply(["{\"health_check_type\":" + "\"http\",\"routes\":[" + "{\"guid\":\"r1\"}," + "{\"guid\":\"r2\"}]}"], None)
    ensures GetHealthCheck(run, decode, appGuid).Done?
    ensures GetHealthCheck(run, decode, appGuid).result.err == Some(HealthCheckFieldMissing)
  {
    var p1, p2, p3, p4 := "{\"health_check_type\":", "\"http\",\"routes\":[", "{\"guid\":\"r1\"},", "{\"guid\":\"r2\"}]}";
    assert NoBlank(p1) && NoBlank(p2) && NoBlank(p3) && NoBlank(p4);
    NoBlankConcat(p1, p2);
    NoBlankConcat(p1 + p2, p3);
    NoBlankConcat(p1 + p2 + p3, p4);
    CompactSummaryFailsPreCheck(run, decode, appGuid);
  }

  /** Without the marker the decoder is never consulted: any two decoders give
      the same answer. */
  lemma PreCheckPrecedesDecode(run: Runner, decode1: Decoder, decode2: Decoder, appGuid: string)
    requires var reply := run(SummaryCommand(appGuid));
      reply.failure.None? && |reply.lines| > 0 && !Contains(reply.lines[0], HealthCheckMarker)
    ensures GetHealthCheck(run, decode1, appGuid) == GetHealthCheck(run, decode2, appGuid)
  {
  }

  // ---------------------------------------------------------------------------
  // Route detachment

  /** If the DELETE for route `i` is the first to fail, exactly the DELETEs for
      routes 0..i are issued, and the operation returns that call's output
      and error. */
  lemma DetachStopsAtFirstFailure(run: Runner, routes: seq<Route>, appGuid: string, i: nat)
    requires i < |routes|
    requires forall k :: 0 <= k < i ==> run(DeleteRouteCommand(routes[k].guid, appGuid)).failure.None?
    requires run(DeleteRouteCommand(routes[i].guid, appGuid)).failure.Some?
    ensures DetachEach(run, routes, appGuid).1 == DeleteCommands(routes, appGuid)[..i + 1]
    ensures DetachEach(run, routes, appGuid).0 == Forwarded(run(DeleteRouteCommand(routes[i].guid, appGuid)))
  {
    var r := DetachEach(run, routes, appGuid);
    var all := DeleteCommands(routes, appGuid);
    var n := |r.1|;
    assert forall k :: 0 <= k < n ==> r.1[k] == all[k];
    assert forall k :: 0 <= k < i ==> run(all[k]).failure.None?;
    assert run(all[i]).failure.Some?;
    assert n == i + 1;
  }

  /** When every DELETE succeeds, one is issued per route, in order, and the
      operation returns no output and no error. */
  lemma DetachAllSucceed(run: Runner, routes: seq<Route>, appGuid: string)
    requires forall k :: 0 <= k < |routes| ==> run(DeleteRouteCommand(routes[k].guid, appGuid)).failure.None?
    ensures DetachEach(run, routes, appGuid) == (Output([], None), DeleteCommands(routes, appGuid))
  {
    var r := DetachEach(run, routes, appGuid);
    var all := DeleteCommands(routes, appGuid);
    var n := |r.1|;
    assert r.0.err.None?;
    assert n == |all|;
    assert r.1 == all;
    assert r.0 == Output([], None);
  }

  /** Every command DetachAppRoutes issues after fetching the summary is the
      DELETE of one of the summary's route bindings, in the summary's order:
      no route is re-mapped or restored. */
  lemma DetachOnlyDeletes(run: Runner, decode: Decoder, appGuid: string)
    requires var reply := run(SummaryCommand(appGuid));
      reply.failure.None? && |reply.lines| > 0 && decode(reply.lines[0]).Decoded?
    ensures var routes := decode(run(SummaryCommand(appGuid)).lines[0]).summary.routes;
      var issued := DetachAppRoutes(run, decode, appGuid).issued;
      && |issued| <= |routes| + 1
      && forall k :: 1 <= k < |issued| ==>
           issued[k] == Invocation(Silent, ["curl", RouteBindingPath(routes[k - 1].guid, appGuid), "-X", "DELETE"])
  {
    var routes := decode(run(SummaryCommand(appGuid)).lines[0]).summary.routes;
    var detached := DetachEach(run, routes, appGuid);
    var issued := DetachAppRoutes(run, decode, appGuid).issued;
    assert issued == [SummaryCommand(appGuid)] + detached.1;
    forall k | 1 <= k < |issued|
      ensures issued[k] == Invocation(Silent, ["curl", RouteBindingPath(routes[k - 1].guid, appGuid), "-X", "DELETE"])
    {
      assert issued[k] == detached.1[k - 1] == DeleteCommands(routes, appGuid)[k - 1];
    }
  }

  /** The detachment is a function of the replies to its own DELETEs: two
      platforms that answer those alike give the same outcome and trace. */
  lemma {:induction false} DetachDependsOnlyOnItsCalls(run1: Runner, run2: Runner, routes: seq<Route>, appGuid: string)
    requires forall k :: 0 <= k < |routes| ==>
      run1(DeleteRouteCommand(routes[k].guid, appGuid)) == run2(DeleteRouteCommand(routes[k].guid, appGuid))
    ensures DetachEach(run1, routes, appGuid) == DetachEach(run2, routes, appGuid)
    decreases |routes|
  {
    if |routes| > 0 {
      var rest := routes[1..];
      assert forall k :: 0 <= k < |rest| ==> rest[k] == routes[k + 1];
      DetachDependsOnlyOnItsCalls(run1, run2, rest, appGuid);
    }
  }

  // ---------------------------------------------------------------------------
  // Lookups and the update body

  /** The lookups are pure reads: with the platform answering their command the
      same way, asking again gives the same answer. */
  lemma LookupsArePureReads(run1: Runner, run2: Runner, appName: string, spaceName: string)
    requires run1(AppGuidCommand(appName)) == run2(AppGuidCommand(appName))
    requires run1(SpaceGuidCommand(spaceName)) == run2(SpaceGuidCommand(spaceName))
    requires run1(TargetCommand()) == run2(TargetCommand())
    requires run1(DomainsCommand()) == run2(DomainsCommand())
    ensures GetAppGuid(run1, appName) == GetAppGuid(run2, appName)
    ensures GetSpaceGuid(run1, spaceName) == GetSpaceGuid(run2, spaceName)
    ensures GetTargetSpace(run1) == GetTargetSpace(run2)
    ensures FindDomain(run1) == FindDomain(run2)
  {
  }

  /** The update of the example sends the body `{"name":"new-name"}`. */
  lemma UpdateAppExample()
    ensures UpdateAppCommand("app1", "name", "new-name").args
            == ["curl", "/v2/apps/app1", "-X", "PUT", "-d", "{\"name\":\"new-name\"}"]
  {
    assert AppPath("app1") == "/v2/apps/app1";
    assert UpdateBody("name", "new-name") == "{\"name\":\"new-name\"}";
  }
}
