/**
 The argument vectors the plugin sends through the CLI connection, and a
 reader for the one-field JSON object UpdateApp sends as its request body.
 */
module Commands {

  import opened Optional
  import opened GoStrings
  import opened Platform

  function AppGuidCommand(appName: string): Invocation {
    Invocation(Silent, ["app", appName, "--guid"])
  }

  function TargetCommand(): Invocation {
    Invocation(Silent, ["target"])
  }

  function SpaceGuidCommand(spaceName: string): Invocation {
    Invocation(Silent, ["space", spaceName, "--guid"])
  }

  function CreateRouteCommand(space: string, domain: string, host: string): Invocation {
    Invocation(Silent, ["create-route", space, domain, "-n", host])
  }

  function DomainsCommand(): Invocation {
    Invocation(Silent, ["domains"])
  }

  function MapRouteCommand(appName: string, domain: string, host: string): Invocation {
    Invocation(Silent, ["map-route", appName, domain, "-n", host])
  }

  /** The only command sent with terminal output. */
  function StartCommand(appName: string): Invocation {
    Invocation(Terminal, ["start", appName])
  }

  function AppPath(appGuid: string): string {
    "/v2/apps/" + appGuid
  }

  function SummaryCommand(appGuid: string): Invocation {
    Invocation(Silent, ["curl", AppPath(appGuid) + "/summary"])
  }

  function RouteBindingPath(routeGuid: string, appGuid: string): string {
    "/v2/routes/" + routeGuid + "/apps/" + appGuid
  }

  function DeleteRouteCommand(routeGuid: string, appGuid: string): Invocation {
    Invocation(Silent, ["curl", RouteBindingPath(routeGuid, appGuid), "-X", "DELETE"])
  }

  /** One DELETE of a route binding per route, in the order of `routes`. */
  function DeleteCommands(routes: seq<Route>, appGuid: string): (cs: seq<Invocation>)
    ensures |cs| == |routes|
    ensures forall k :: 0 <= k < |routes| ==> cs[k] == DeleteRouteCommand(routes[k].guid, appGuid)
  {
    seq(|routes|, k requires 0 <= k < |routes| => DeleteRouteCommand(routes[k].guid, appGuid))
  }

  /** The request body of UpdateApp, assembled by concatenation with no
      escaping of `field` or `value`. */
  function UpdateBody(field: string, value: string): string {
    "{\"" + field + "\":\"" + value + "\"}"
  }

  function UpdateAppCommand(appGuid: string, field: string, value: string): Invocation {
    Invocation(Silent, ["curl", AppPath(appGuid), "-X", "PUT", "-d", UpdateBody(field, value)])
  }

  /** Text that a JSON string literal holds as is: no quote, no backslash and
      no control character U+0000 to U+001F (section 7 of RFC 8259). */
  predicate PlainJsonText(s: string) {
    forall i :: 0 <= i < |s| ==> s[i] != '"' && s[i] != '\\' && s[i] as int >= 0x20
  }

  /** Reads a JSON object with exactly one string member, both strings written
      without escapes and with no white space: `{"field":"value"}`. */
  function ReadFlatObject(body: string): (r: Option<(string, string)>)
    ensures r.Some? ==> PlainJsonText(r.value.0) && PlainJsonText(r.value.1)
  {
    if !HasPrefix(body, "{\"") then None
    else
      var rest := body[2..];
      match IndexOf(rest, '"')
      case None => None
      case Some(i) =>
        var field := rest[..i];
        var after := rest[i + 1..];
        if !HasPrefix(after, ":\"") then None
        else
          var tail := after[2..];
          match IndexOf(tail, '"')
          case None => None
          case Some(j) =>
            var value := tail[..j];
            if tail[j + 1..] == "}" && PlainJsonText(field) && PlainJsonText(value)
            then Some((field, value))
            else None
  }

  /** The first quote after plain text is the one that follows it. */
  lemma FirstQuoteAfterPlain(text: string, rest: string)
    requires PlainJsonText(text)
    ensures IndexOf(text + "\"" + rest, '"') == Some(|text|)
  {
    var s := text + "\"" + rest;
    assert s[|text|] == '"';
    assert forall k :: 0 <= k < |text| ==> s[k] == text[k];
  }

  /** UpdateApp's body reads back as the one member it was built from exactly
      when neither the field name nor the value needs escaping. */
  lemma UpdateBodyRoundTrip(field: string, value: string)
    ensures ReadFlatObject(UpdateBody(field, value)) == Some((field, value))
            <==> PlainJsonText(field) && PlainJsonText(value)
  {
    if PlainJsonText(field) && PlainJsonText(value) {
      var body := UpdateBody(field, value);
      var rest := field + "\"" + (":\"" + value + "\"}");
      assert body[..2] == "{\"" && body[2..] == rest;
      FirstQuoteAfterPlain(field, ":\"" + value + "\"}");
      assert rest[..|field|] == field;
      var tail := value + "\"" + "}";
      assert rest[|field| + 1..][..2] == ":\"" && rest[|field| + 1..][2..] == tail;
      FirstQuoteAfterPlain(value, "}");
      assert tail[..|value|] == value && tail[|value| + 1..] == "}";
    }
  }

  /** Without escaping, two different updates can send the same body: the
      body cannot tell a field `a":"b` set to `c` from a field `a` set to `b":"c`. */
  lemma UnescapedUpdatesCollide()
    ensures UpdateBody("a\":\"b", "c") == UpdateBody("a", "b\":\"c")
    ensures ("a\":\"b", "c") != ("a", "b\":\"c")
  {
  }
}
