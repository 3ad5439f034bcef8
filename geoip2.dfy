/** The `http.handlers.geoip2` middleware (`geoip2_vars`): its mode, how it
    picks the client address of a request, and the order in which it fills
    the request's variables before handing the request on. */
module Handler {
  import opened Basics
  import opened Text
  import opened Sink
  import opened MaxMind
  import opened Caddyfile
  import Replacers
  import AppState

  // ---------------------------------------------------------------------------
  // Modes
  // ---------------------------------------------------------------------------

  /** Where the client address comes from. `Unset` is the zero value the
      handler has before it is provisioned. */
  datatype Mode = Unset | Strict | TrustedProxies | Wild | Disabled

  /** The mode an `enable` setting selects, ignoring case; anything that is
      not a known spelling selects `TrustedProxies`. */
  function ModeOf(enable: string): Mode {
    match ToLower(enable)
    case "strict" => Strict
    case "wild" => Wild
    case "off" | "false" | "0" => Disabled
    case _ => TrustedProxies
  }

  /** The spellings of each mode, in any case; provisioning never leaves the
      handler unset. */
  lemma ModeSpellings(enable: string)
    ensures ModeOf(enable) == Strict <==> ToLower(enable) == "strict"
    ensures ModeOf(enable) == Wild <==> ToLower(enable) == "wild"
    ensures ModeOf(enable) == Disabled <==> ToLower(enable) in ["off", "false", "0"]
    ensures ModeOf(enable) == TrustedProxies <==> ToLower(enable) !in ["strict", "wild", "off", "false", "0"]
    ensures ModeOf(enable) != Unset
  {
  }

  /** The mode does not depend on case. */
  lemma ModeIgnoresCase(a: string, b: string)
    requires ToLower(a) == ToLower(b)
    ensures ModeOf(a) == ModeOf(b)
    ensures ModeOf(ToLower(a)) == ModeOf(a)
  {
    ToLowerIdempotent(a);
  }

  /** An empty setting, the directive's absence, selects trusted proxies. */
  lemma ModeDefault()
    ensures ModeOf("") == TrustedProxies
  {
  }

  /** Spellings in other cases select their mode. */
  lemma ModeUpperCase()
    ensures ModeOf("STRICT") == Strict
    ensures ModeOf("Off") == Disabled
  {
    assert ToLower("STRICT") == "strict";
    assert ToLower("Off") == "off";
  }

  // ---------------------------------------------------------------------------
  // The client address
  // ---------------------------------------------------------------------------

  /** What the handler reads of a request: `RemoteAddr`, the
      `X-Forwarded-For` header, and whether the server judged the immediate
      peer a trusted proxy. */
  datatype Request = Request(remoteAddr: string, forwardedFor: string, trustedProxy: bool)

  /** The `net` functions the handler calls: `SplitHostPort` (its host, or
      the text of its address error), `ParseIP` (`None` for nil) and
      `IP.String`. */
  datatype Net = Net(
    splitHostPort: string -> Result<string, string>,
    parseIP: string -> Option<IP>,
    show: IP -> string)

  const MissingPort: string := "missing port in address"

  /** The header is believed in wild mode, and in trusted-proxies mode when
      the peer is a trusted proxy, and only when it is present. */
  predicate UsesForwarded(mode: Mode, req: Request) {
    ((mode == TrustedProxies && req.trustedProxy) || mode == Wild) && req.forwardedFor != ""
  }

  /** The textual client address `getClientIP` settles on: the first entry
      of the header, or the host of the remote address, or the whole remote
      address when it has no port. */
  function ClientAddress(mode: Mode, req: Request, net: Net): Result<string, string> {
    if UsesForwarded(mode, req) then Ok(Split(req.forwardedFor, ", ")[0])
    else
      match net.splitHostPort(req.remoteAddr)
      case Ok(host) => Ok(host)
      case Err(cause) => if cause == MissingPort then Ok(req.remoteAddr) else Err(cause)
  }

  /** `getClientIP`: the client address parsed as an IP. */
  function ClientIP(mode: Mode, req: Request, net: Net): Result<IP, string> {
    match ClientAddress(mode, req, net)
    case Err(cause) => Err(cause)
    case Ok(address) =>
      match net.parseIP(address)
      case None => Err("unable to parse address: " + Quoted(address))
      case Some(ip) => Ok(ip)
  }

  /** When the header is believed, the address is its first entry: all of it
      up to the first ", ", which it does not contain. */
  lemma ForwardedFirstEntry(mode: Mode, req: Request, net: Net)
    requires UsesForwarded(mode, req)
    ensures ClientAddress(mode, req, net).Ok?
    ensures var a := ClientAddress(mode, req, net).value;
      && Free(a, ", ")
      && (a == req.forwardedFor || (|a| + 2 <= |req.forwardedFor| && req.forwardedFor[..|a| + 2] == a + ", "))
  {
    var f := req.forwardedFor;
    var a := Split(f, ", ")[0];
    SplitFirst(f, ", ");
    SplitPiecesFree(f, ", ");
    assert a in Split(f, ", ");
    if a != f {
      assert f[|a|..|a| + 2] == ", ";
      assert f[..|a| + 2] == f[..|a|] + f[|a|..|a| + 2];
    }
  }

  /** Otherwise the header is ignored: the address comes from the remote
      address alone, whatever the header says. */
  lemma ForwardedIgnored(mode: Mode, req: Request, net: Net, header: string)
    requires !UsesForwarded(mode, req) && !UsesForwarded(mode, req.(forwardedFor := header))
    ensures ClientAddress(mode, req, net) == ClientAddress(mode, req.(forwardedFor := header), net)
  {
  }

  /** In strict mode, and in trusted-proxies mode behind an untrusted peer,
      no header can choose the address. */
  lemma StrictIgnoresHeader(mode: Mode, req: Request, net: Net, header: string)
    requires mode == Strict || mode == Disabled || mode == Unset || (mode == TrustedProxies && !req.trustedProxy)
    ensures ClientAddress(mode, req, net) == ClientAddress(mode, req.(forwardedFor := header), net)
  {
  }

  /** The remote address is used whole when it has no port, and an address
      error of any other kind is returned. */
  lemma RemoteAddressCases(mode: Mode, req: Request, net: Net)
    requires !UsesForwarded(mode, req)
    ensures net.splitHostPort(req.remoteAddr).Ok? ==>
      ClientAddress(mode, req, net) == Ok(net.splitHostPort(req.remoteAddr).value)
    ensures net.splitHostPort(req.remoteAddr) == Err(MissingPort) ==>
      ClientAddress(mode, req, net) == Ok(req.remoteAddr)
    ensures ClientAddress(mode, req, net).Err? <==>
      net.splitHostPort(req.remoteAddr).Err? && net.splitHostPort(req.remoteAddr).error != MissingPort
  {
  }

  /** A client IP is found exactly when an address is settled on and it parses. */
  lemma ClientIPCases(mode: Mode, req: Request, net: Net)
    ensures ClientIP(mode, req, net).Ok? <==>
      ClientAddress(mode, req, net).Ok? && net.parseIP(ClientAddress(mode, req, net).value).Some?
    ensures ClientIP(mode, req, net).Ok? ==>
      Some(ClientIP(mode, req, net).value) == net.parseIP(ClientAddress(mode, req, net).value)
    ensures ClientAddress(mode, req, net).Ok? && net.parseIP(ClientAddress(mode, req, net).value).None? ==>
      ClientIP(mode, req, net) == Err("unable to parse address: " + Quoted(ClientAddress(mode, req, net).value))
    ensures ClientAddress(mode, req, net).Err? ==> ClientIP(mode, req, net) == Err(ClientAddress(mode, req, net).error)
  {
  }

  // ---------------------------------------------------------------------------
  // Serving a request
  // ---------------------------------------------------------------------------

  /** The writes `ServeHTTP` makes after the defaults: unless lookups are
      disabled, when readers are loaded and the client IP is found, the
      client address followed by every reader's lookup. */
  function RequestWrites(mode: Mode, readers: seq<Replacers.Projector>, req: Request, net: Net): seq<Write> {
    if mode == Disabled || |readers| == 0 then []
    else
      match ClientIP(mode, req, net)
      case Err(_) => []
      case Ok(ip) =>
        (if |ip.bytes| > 0 then [Write(Replacers.IpAddressKey, Str(net.show(ip)))] else [])
        + AppState.LookupWrites(readers, ip)
  }

  /** With lookups disabled, no readers, or no client IP, nothing follows
      the defaults. */
  lemma RequestSkipped(mode: Mode, readers: seq<Replacers.Projector>, req: Request, net: Net)
    requires mode == Disabled || |readers| == 0 || ClientIP(mode, req, net).Err?
    ensures RequestWrites(mode, readers, req, net) == []
  {
  }

  /** So the request then sees exactly the primed variables: the client
      address empty and every other primed variable at its zero value. */
  lemma ServeDefaultsOnly(m: map<string, Value>, mode: Mode, readers: seq<Replacers.Projector>, req: Request, net: Net)
    requires mode == Disabled || |readers| == 0 || ClientIP(mode, req, net).Err?
    ensures var F := Apply(m, Replacers.DefaultWrites() + RequestWrites(mode, readers, req, net));
      && Replacers.IpAddressKey in F && F[Replacers.IpAddressKey] == Str("")
      && forall k :: k in KeysOf(Replacers.DefaultWrites()) ==> k in F && IsZero(F[k])
  {
    RequestSkipped(mode, readers, req, net);
    assert Replacers.DefaultWrites() + [] == Replacers.DefaultWrites();
    Replacers.DefaultsZero(m);
  }

  /** When the lookups run, the client address variable holds the client
      IP's text at the end: no reader overwrites it. */
  lemma ServeSetsAddress(m: map<string, Value>, mode: Mode, readers: seq<Replacers.Projector>, req: Request, net: Net)
    requires mode != Disabled && |readers| > 0 && ClientIP(mode, req, net).Ok?
    requires |ClientIP(mode, req, net).value.bytes| > 0
    ensures var F := Apply(m, RequestWrites(mode, readers, req, net));
      Replacers.IpAddressKey in F && F[Replacers.IpAddressKey] == Str(net.show(ClientIP(mode, req, net).value))
  {
    var ip := ClientIP(mode, req, net).value;
    var address := [Write(Replacers.IpAddressKey, Str(net.show(ip)))];
    var lookups := AppState.LookupWrites(readers, ip);
    assert RequestWrites(mode, readers, req, net) == address + lookups;
    ApplyConcat(m, address, lookups);
    AppState.LookupKeepsIpAddress(readers, ip);
    ApplyUntouched(Apply(m, address), lookups, Replacers.IpAddressKey);
  }

  /** When the lookups run, a variable a reader writes ends with that
      reader's value unless a later reader writes it too. */
  lemma ServeReaderValues(m: map<string, Value>, mode: Mode, readers: seq<Replacers.Projector>, req: Request, net: Net,
                          j: nat, x: Write)
    requires mode != Disabled && |readers| > 0 && ClientIP(mode, req, net).Ok?
    requires j < |readers| && x in Replacers.ProjectorWrites(readers[j], ClientIP(mode, req, net).value)
    requires forall i :: j < i < |readers| ==>
      x.key !in KeysOf(Replacers.ProjectorWrites(readers[i], ClientIP(mode, req, net).value))
    ensures var F := Apply(m, RequestWrites(mode, readers, req, net));
      x.key in F && F[x.key] == x.value
  {
    var ip := ClientIP(mode, req, net).value;
    var address := if |ip.bytes| > 0 then [Write(Replacers.IpAddressKey, Str(net.show(ip)))] else [];
    var lookups := AppState.LookupWrites(readers, ip);
    assert RequestWrites(mode, readers, req, net) == address + lookups;
    ApplyConcat(m, address, lookups);
    AppState.LaterReaderWins(Apply(m, address), readers, ip, j, x);
  }

  // ---------------------------------------------------------------------------
  // The geoip2_vars directive
  // ---------------------------------------------------------------------------

  /** Caddy's `ArgErr` for a directive token with no argument; a stray
      block opening gets a message of its own. */
  function ArgError(key: string): string {
    if key == "{" then "unexpected token '{', expecting argument"
    else "wrong argument count or unexpected line ending after '" + key + "'"
  }

  /** What reading the directive leaves: the `enable` setting and the error, if any. */
  datatype Directive = Directive(enable: string, err: Option<string>)

  /** The directive loop: every entry (each key token) needs an argument,
      which becomes the setting; the first entry without one ends the loop
      with an error. */
  function DirectiveWalk(enable: string, es: seq<Entry>): Directive
    decreases |es|
  {
    if es == [] then Directive(enable, None)
    else
      var d := DirectiveWalk(enable, es[..|es| - 1]);
      if d.err.Some? then d
      else match es[|es| - 1].arg
        case None => Directive(d.enable, Some(ArgError(es[|es| - 1].key)))
        case Some(v) => Directive(v, None)
  }

  /** The directive fails exactly when an entry lacks an argument, reporting
      the first such entry's key; otherwise the last argument is the setting. */
  lemma {:induction false} DirectiveOutcome(enable: string, es: seq<Entry>)
    ensures DirectiveWalk(enable, es).err.None? <==> forall i :: 0 <= i < |es| ==> es[i].arg.Some?
    ensures DirectiveWalk(enable, es).err.None? ==>
      DirectiveWalk(enable, es).enable == if es == [] then enable else es[|es| - 1].arg.value
    ensures forall i :: 0 <= i < |es| && es[i].arg.None? && (forall j :: 0 <= j < i ==> es[j].arg.Some?) ==>
      DirectiveWalk(enable, es).err == Some(ArgError(es[i].key))
    decreases |es|
  {
    if es != [] {
      var init := es[..|es| - 1];
      DirectiveOutcome(enable, init);
      assert forall i :: 0 <= i < |init| ==> init[i] == es[i];
    }
  }

  // ---------------------------------------------------------------------------
  // The handler
  // ---------------------------------------------------------------------------

  class GeoIP2 {
    var enable: string
    var state: AppState.GeoIP2State?
    var mode: Mode

    /** The handler `parseCaddyfile` starts from. */
    constructor ()
      ensures enable == "" && state == null && mode == Unset
    {
      enable := "";
      state := null;
      mode := Unset;
    }

    /** `UnmarshalCaddyfile`: reads the directive's argument into `enable`. */
    method UnmarshalCaddyfile(entries: seq<Entry>) returns (err: Option<string>)
      modifies this
      ensures Directive(enable, err) == DirectiveWalk(old(enable), entries)
      ensures state == old(state) && mode == old(mode)
    {
      for i := 0 to |entries|
        invariant DirectiveWalk(old(enable), entries[..i]) == Directive(enable, None)
        invariant state == old(state) && mode == old(mode)
      {
        assert entries[..i + 1][..i] == entries[..i];
        var e := entries[i];
        match e.arg {
          case None =>
            err := Some(ArgError(e.key));
            assert DirectiveWalk(old(enable), entries[..i + 1]) == Directive(enable, err);
            assert forall j :: i < j <= |entries| ==> DirectiveWalk(old(enable), entries[..j]) == Directive(enable, err) by {
              forall j | i < j <= |entries| ensures DirectiveWalk(old(enable), entries[..j]) == Directive(enable, err) {
                StopsAfter(old(enable), entries, i + 1, j);
              }
            }
            assert entries[..|entries|] == entries;
            return;
          case Some(v) =>
            enable := v;
        }
      }
      assert entries[..|entries|] == entries;
      err := None;
    }

    /** `Provision`: attaches the app and derives the mode from `enable`; a
        missing app is an error that changes nothing. */
    method Provision(app: Result<AppState.GeoIP2State, string>) returns (err: Option<string>)
      modifies this
      ensures app.Err? ==>
        err == Some("getting geoip2 app: " + app.error) && state == old(state) && mode == old(mode) && enable == old(enable)
      ensures app.Ok? ==> err == None && state == app.value && mode == ModeOf(enable) && enable == old(enable)
    {
      if app.Err? {
        return Some("getting geoip2 app: " + app.error);
      }
      state := app.value;
      var lowered := ToLower(enable);
      match lowered {
        case "strict" => mode := Strict;
        case "wild" => mode := Wild;
        case "off" | "false" | "0" => mode := Disabled;
        case _ => mode := TrustedProxies;
      }
      err := None;
    }

    /** `ServeHTTP`: primes the request's variables, performs the lookups
        `RequestWrites` describes, and hands the request on; whatever the
        next handler returns is the result. */
    method ServeHTTP(req: Request, repl: Replacer, net: Net, next: Option<string>) returns (err: Option<string>)
      modifies repl
      ensures repl.log == old(repl.log) + Replacers.DefaultWrites() +
        RequestWrites(mode, if state == null then [] else state.dbReaders, req, net)
      ensures err == next
    {
      Replacers.SetDefaultValues(repl);
      LookupClient(req, repl, net);
      err := next;
    }

    /** The body of `ServeHTTP` after the defaults: the mode and reader
        checks, the client IP, its variable and the lookups. */
    method LookupClient(req: Request, repl: Replacer, net: Net)
      modifies repl
      ensures repl.log == old(repl.log) + RequestWrites(mode, if state == null then [] else state.dbReaders, req, net)
    {
      if mode != Disabled {
        if state != null && |state.dbReaders| > 0 {
          var clientIP := ClientIP(mode, req, net);
          if clientIP.Ok? {
            var ip := clientIP.value;
            if |ip.bytes| > 0 {
              repl.Set(Replacers.IpAddressKey, Str(net.show(ip)));
            }
            ghost var addressed := repl.log;
            state.Lookup(repl, ip);
            assert addressed == old(repl.log) + addressed[|old(repl.log)|..];
            AppendAssociative(old(repl.log), addressed[|old(repl.log)|..], AppState.LookupWrites(state.dbReaders, ip));
          }
        }
      }
    }
  }

  /** A block after the directive is not an argument: `geoip2_vars {`
      fails naming the directive and keeps the old setting. */
  lemma DirectiveBlockOpening(enable: string)
    ensures DirectiveWalk(enable, Entries([Token("geoip2_vars", 1), Token("{", 1), Token("}", 2)]))
      == Directive(enable, Some(ArgError("geoip2_vars")))
  {
    var ts := [Token("geoip2_vars", 1), Token("{", 1), Token("}", 2)];
    var es := Entries(ts);
    assert es[..1] == [Entry("geoip2_vars", None)] by {
      EntriesOfLine(ts[0], ts[1], ts[2..]);
      assert ts == [ts[0], ts[1]] + ts[2..];
    }
    StopsAfter(enable, es, 1, |es|);
    assert es[..|es|] == es;
  }

  /** A `{` after the argument is a key of its own with no argument: the
      setting is taken, then the loop fails with the block-opening message. */
  lemma DirectiveStrayBrace(enable: string, arg: string)
    requires arg != "{"
    ensures DirectiveWalk(enable, Entries([Token("geoip2_vars", 1), Token(arg, 1), Token("{", 1), Token("}", 2)]))
      == Directive(arg, Some("unexpected token '{', expecting argument"))
  {
    var us := [Token("geoip2_vars", 1), Token(arg, 1), Token("{", 1), Token("}", 2)];
    var fs := Entries(us);
    assert fs == [Entry("geoip2_vars", Some(arg)), Entry("{", None), Entry("}", None)] by {
      EntriesOfLine(us[0], us[1], us[2..]);
      assert us == [us[0], us[1]] + us[2..];
      assert us[2..] == [us[2], us[3]];
      assert [us[2], us[3]][1..] == [us[3]];
      assert Entries([us[3]]) == [Entry("}", None)];
    }
    assert fs[..2][..1] == fs[..1] == [Entry("geoip2_vars", Some(arg))];
    assert fs[..1][..0] == [];
    assert DirectiveWalk(enable, fs[..1]) == Directive(arg, None);
    assert fs[..2][1] == Entry("{", None);
    assert DirectiveWalk(enable, fs[..2]) == Directive(arg, Some("unexpected token '{', expecting argument"));
    StopsAfter(enable, fs, 2, 3);
    assert fs[..3] == fs;
  }

  /** Once the directive loop has failed, later tokens change nothing. */
  lemma {:induction false} StopsAfter(enable: string, es: seq<Entry>, n: nat, j: nat)
    requires n <= j <= |es|
    requires DirectiveWalk(enable, es[..n]).err.Some?
    ensures DirectiveWalk(enable, es[..j]) == DirectiveWalk(enable, es[..n])
    decreases j - n
  {
    if j > n {
      StopsAfter(enable, es, n, j - 1);
      assert es[..j][..j - 1] == es[..j - 1];
    }
  }
}
