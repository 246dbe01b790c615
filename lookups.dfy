/** Lookups over provider listings: the flavor id of a name or id, and the console URLs. */
module Lookups {
  import opened Wrappers
  import opened ProviderErrors
  import Text

  /** A flavor as the provider lists it. */
  datatype Flavor = Flavor(id: string, name: string)

  /** The flavor `o` is the one asked for, by name or by id. */
  predicate Names(o: Flavor, flavor: string) {
    o.name == flavor || o.id == flavor
  }

  /**
   * `get_flavor_id`: the id of the first listed flavor whose name or id is `flavor`; when none
   * is, the flavor-missing failure.
   */
  method GetFlavorId(flavors: seq<Flavor>, flavor: string) returns (r: Result<string, Error>)
    ensures r.Failure? <==> forall j :: 0 <= j < |flavors| ==> !Names(flavors[j], flavor)
    ensures r.Failure? ==> r.error == FlavorMissing(flavor)
    ensures r.Success? ==> exists i :: (0 <= i < |flavors| && Names(flavors[i], flavor)
      && r.value == flavors[i].id
      && forall j :: 0 <= j < i ==> !Names(flavors[j], flavor))
  {
    var flavorId: Option<string> := None;
    var i := 0;
    while i < |flavors|
      invariant 0 <= i <= |flavors|
      invariant flavorId == None
      invariant forall j :: 0 <= j < i ==> !Names(flavors[j], flavor)
    {
      var o := flavors[i];
      if o.name == flavor {
        flavorId := Some(o.id);
        break;
      }
      if o.id == flavor {
        flavorId := Some(o.id);
        break;
      }
      i := i + 1;
    }
    if flavorId == None {
      return Failure(FlavorMissing(flavor));
    }
    assert Names(flavors[i], flavor) && flavorId.value == flavors[i].id;
    r := Success(flavorId.value);
  }

  /** The provider call behind each console type. */
  datatype ConsoleMethod = VncConsole | SpiceConsole | RdpConsole | SerialConsole

  /** What a console call gives: the console's URL, or a raised error. */
  datatype ConsoleReply = ConsoleUrl(url: string) | ConsoleRaised(error: ProviderError)

  /** The console types the mapping offers, in order. */
  const CONSOLE_TYPES: seq<string> := ["novnc", "xvpvnc", "spice-html5", "rdp-html5", "serial"]

  const UNAVAILABLE := "Unavailable console type"

  /** The call that resolves each console type; both VNC flavours share one. */
  function ConsoleMethodFor(key: string): (m: Option<ConsoleMethod>)
    ensures m.Some? <==> key in CONSOLE_TYPES
  {
    if key == "novnc" || key == "xvpvnc" then Some(VncConsole)
    else if key == "spice-html5" then Some(SpiceConsole)
    else if key == "rdp-html5" then Some(RdpConsole)
    else if key == "serial" then Some(SerialConsole)
    else None
  }

  /**
   * `ConsoleUrls[key]`: make the one provider call for that console type, passing the type.
   * A bad request saying the type is unavailable yields its message as the URL; any other error
   * is raised again, and an unknown type is a missing key.
   */
  function ConsoleUrlFor(key: string, call: (ConsoleMethod, string) -> ConsoleReply): (r: Result<string, Error>)
    ensures key !in CONSOLE_TYPES ==> r == Failure(KeyNotFound(key))
    ensures key in CONSOLE_TYPES ==>
      var reply := call(ConsoleMethodFor(key).value, key);
      && (reply.ConsoleUrl? ==> r == Success(reply.url))
      && (reply.ConsoleRaised? && IsBadRequest(reply.error) && Text.Contains(reply.error.message, UNAVAILABLE)
          ==> r == Success(reply.error.message))
      && (reply.ConsoleRaised? && !(IsBadRequest(reply.error) && Text.Contains(reply.error.message, UNAVAILABLE))
          ==> r == Failure(Reraised(reply.error)))
  {
    match ConsoleMethodFor(key)
    case None => Failure(KeyNotFound(key))
    case Some(m) =>
      match call(m, key)
      case ConsoleUrl(url) => Success(url)
      case ConsoleRaised(e) =>
        if IsBadRequest(e) && Text.Contains(e.message, UNAVAILABLE) then Success(e.message)
        else Failure(Reraised(e))
  }

  /** `len(ConsoleUrls)`: the fixed number of console types, whatever the server supports. */
  function ConsoleCount(): (n: nat)
    ensures n == 5
  {
    |CONSOLE_TYPES|
  }

  /** The console types are distinct, and the two VNC types resolve through the same call. */
  lemma ConsoleTypesDistinct()
    ensures forall i, j :: 0 <= i < j < |CONSOLE_TYPES| ==> CONSOLE_TYPES[i] != CONSOLE_TYPES[j]
    ensures ConsoleMethodFor("novnc") == ConsoleMethodFor("xvpvnc") == Some(VncConsole)
  {
  }

  /** An unavailable-type message is returned as the URL wherever the phrase occurs in it. */
  lemma UnavailableMessageIsUrl(key: string, e: ProviderError, before: string, after: string)
    requires key in CONSOLE_TYPES
    requires IsBadRequest(e) && e.message == before + UNAVAILABLE + after
    ensures ConsoleUrlFor(key, (m, k) => ConsoleRaised(e)) == Success(e.message)
  {
    Text.ContainsMiddle(before, UNAVAILABLE, after);
  }
}
