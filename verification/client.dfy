/**
 * Solarium's Endpoint: the description of one Solr server target and the
 * base URIs computed from it.
 *
 * The option array of the PHP class is the record `Options`. The plain getters
 * are its field selectors; getCore, getAuthentication and the URI builders are
 * functions of the record. The class `Endpoint` holds the record and updates it
 * through the setters and the `Init` hook.
 */
module Client {
  import opened Wrappers
  import opened Decimal

  /** The endpoint's options, one field per option name. */
  datatype Options = Options(
    key: Option<string>,
    scheme: string,
    host: string,
    port: int,
    path: string,
    collection: Option<string>,
    core: Option<string>,
    timeout: int,
    leader: bool,
    username: Option<string>,
    password: Option<string>)

  /** HTTP basic authentication settings, as returned by getAuthentication. */
  datatype Authentication = Authentication(username: Option<string>, password: Option<string>)

  /** The defaults of a standard Solr example instance; key and credentials are absent. */
  function Defaults(): Options {
    Options(None, "http", "127.0.0.1", 8983, "/solr", None, None, 5, false, None, None)
  }

  predicate EndsWithSlash(s: string) {
    |s| > 0 && s[|s| - 1] == '/'
  }

  /** PHP's empty() on a nullable string: null, "" and "0" are all empty. */
  predicate PhpEmpty(s: Option<string>) {
    s == None || s.value == "" || s.value == "0"
  }

  /** The path as setPath stores it: at most one trailing '/' removed. */
  function TrimTrailingSlash(p: string): (r: string)
    ensures r + (if EndsWithSlash(p) then "/" else "") == p
    ensures EndsWithSlash(r) <==> |p| >= 2 && p[|p| - 2..] == "//"
  {
    if EndsWithSlash(p) then p[..|p| - 1] else p
  }

  /** getCore: the core option, falling back to the collection when no core is set. */
  function Core(o: Options): (r: Option<string>)
    ensures r == if o.core.Some? then o.core else o.collection
  {
    if o.core == None && o.collection != None then o.collection else o.core
  }

  /** getAuthentication */
  function GetAuthentication(o: Options): (a: Authentication)
    ensures a.username == o.username && a.password == o.password
  {
    Authentication(o.username, o.password)
  }

  /** The "scheme://host:port" part of every URI. */
  function Authority(o: Options): string {
    o.scheme + "://" + o.host + ":" + IntToDecimal(o.port)
  }

  /** getServerUri: the URI for requests that address no core or collection. */
  function ServerUri(o: Options): (r: string)
    ensures EndsWithSlash(r)
    ensures o.scheme + "://" + o.host + ":" <= r
    ensures |r| > |o.path| && r[|r| - |o.path| - 1..] == o.path + "/"
  {
    Authority(o) + o.path + "/"
  }

  /** getCollectionBaseUri: the server URI, then the collection segment when one is set. */
  function CollectionBaseUri(o: Options): (r: string)
    ensures o.collection == None ==> r == ServerUri(o)
    ensures o.collection.Some? ==> r == ServerUri(o) + o.collection.value + "/"
    ensures EndsWithSlash(r)
  {
    var uri := ServerUri(o);
    var collection := o.collection;
    if collection != None then uri + collection.value + "/" else uri
  }

  /** getCoreBaseUri: the server URI, then the core segment (or its collection fallback) unless empty. */
  function CoreBaseUri(o: Options): (r: string)
    ensures o.core.Some? && !PhpEmpty(o.core) ==> r == ServerUri(o) + o.core.value + "/"
    ensures o.core == None && !PhpEmpty(o.collection) ==> r == ServerUri(o) + o.collection.value + "/"
    ensures PhpEmpty(if o.core.Some? then o.core else o.collection) ==> r == ServerUri(o)
    ensures EndsWithSlash(r)
  {
    var uri := ServerUri(o);
    var core := Core(o);
    if !PhpEmpty(core) then uri + core.value + "/" else uri
  }

  /** getBaseUri: the deprecated alias of getCoreBaseUri (its deprecation notice is not modelled). */
  function BaseUri(o: Options): (r: string)
    ensures r == CoreBaseUri(o)
  {
    CoreBaseUri(o)
  }

  /** The names of the endpoint's options, the keys that init walks over. */
  const OptionNames: seq<string> :=
    ["scheme", "host", "port", "path", "collection", "core", "timeout", "leader", "key", "username", "password"]

  /** One endpoint; `options` is the option array of the PHP object. */
  class Endpoint {
    var options: Options

    constructor ()
      ensures options.scheme == "http" && options.host == "127.0.0.1" && options.port == 8983
      ensures options.path == "/solr" && options.collection == None && options.core == None
      ensures options.timeout == 5 && !options.leader
      ensures options.key == None && options.username == None && options.password == None
    {
      options := Defaults();
    }

    method SetKey(key: string)
      modifies this
      ensures options == old(options).(key := Some(key))
    {
      options := options.(key := Some(key));
    }

    method SetHost(host: string)
      modifies this
      ensures options == old(options).(host := host)
    {
      options := options.(host := host);
    }

    method SetPort(port: int)
      modifies this
      ensures options == old(options).(port := port)
    {
      options := options.(port := port);
    }

    method SetPath(path: string)
      modifies this
      ensures options == old(options).(path := TrimTrailingSlash(path))
    {
      var p := path;
      if EndsWithSlash(p) {
        p := p[..|p| - 1];
      }
      options := options.(path := p);
    }

    method SetCollection(collection: Option<string>)
      modifies this
      ensures options == old(options).(collection := collection)
    {
      options := options.(collection := collection);
    }

    method SetCore(core: Option<string>)
      modifies this
      ensures options == old(options).(core := core)
    {
      options := options.(core := core);
    }

    method SetTimeout(timeout: int)
      modifies this
      ensures options == old(options).(timeout := timeout)
    {
      options := options.(timeout := timeout);
    }

    method SetScheme(scheme: string)
      modifies this
      ensures options == old(options).(scheme := scheme)
    {
      options := options.(scheme := scheme);
    }

    method SetAuthentication(username: Option<string>, password: Option<string>)
      modifies this
      ensures options == old(options).(username := username, password := password)
      ensures GetAuthentication(options) == Authentication(username, password)
    {
      options := options.(username := username);
      options := options.(password := password);
    }

    method SetLeader(leader: bool)
      modifies this
      ensures options == old(options).(leader := leader)
    {
      options := options.(leader := leader);
    }

    /** The initialisation hook: walks the options and passes the path through SetPath, once. */
    method Init()
      modifies this
      ensures options == old(options).(path := TrimTrailingSlash(old(options).path))
    {
      var configured := options;
      var i := 0;
      while i < |OptionNames|
        invariant 0 <= i <= |OptionNames|
        invariant options == if "path" in OptionNames[..i]
                             then configured.(path := TrimTrailingSlash(configured.path))
                             else configured
      {
        var name := OptionNames[i];
        assert OptionNames[..i + 1] == OptionNames[..i] + [name];
        if name == "path" {
          assert "path" !in OptionNames[..i];
          SetPath(configured.path);
        }
        i := i + 1;
      }
      assert OptionNames[..i] == OptionNames && OptionNames[3] == "path";
    }
  }

  /**
   * The server URI splits into exactly three parts: "scheme://host:", the
   * port's decimal text, which parses back to the port, and the path followed by "/".
   */
  lemma PortInServerUri(o: Options)
    ensures var start := |o.scheme| + 3 + |o.host| + 1;
            var end := start + |IntToDecimal(o.port)|;
            && |ServerUri(o)| == end + |o.path| + 1
            && ServerUri(o)[..start] == o.scheme + "://" + o.host + ":"
            && ParseDecimal(ServerUri(o)[start..end]) == Some(o.port)
            && ServerUri(o)[end..] == o.path + "/"
  {
    var head, digits, tail := o.scheme + "://" + o.host + ":", IntToDecimal(o.port), o.path + "/";
    var uri := ServerUri(o);
    assert uri == head + digits + tail;
    SliceOfThree(head, digits, tail);
    IntRoundTrip(o.port);
  }

  /** The three slices of a concatenation of three strings. */
  lemma SliceOfThree(a: string, b: string, c: string)
    ensures var s := a + b + c;
            && |s| == |a| + |b| + |c|
            && s[..|a|] == a && s[|a|..|a| + |b|] == b && s[|a| + |b|..] == c
  {
    var s := a + b + c;
    assert s[..|a|] == a;
    assert s[|a|..|a| + |b|] == b;
    assert s[|a| + |b|..] == c;
  }

  /** The server URI determines the port when the other options are fixed. */
  lemma ServerUriDeterminesPort(o: Options, port: int)
    requires ServerUri(o) == ServerUri(o.(port := port))
    ensures o.port == port
  {
    var prefix := o.scheme + "://" + o.host + ":";
    var suffix := o.path + "/";
    var a, b := IntToDecimal(o.port), IntToDecimal(port);
    assert ServerUri(o) == prefix + a + suffix;
    assert ServerUri(o.(port := port)) == prefix + b + suffix;
    assert a == (prefix + a + suffix)[|prefix|..|prefix| + |a|];
    assert b == (prefix + b + suffix)[|prefix|..|prefix| + |b|];
    DecimalInjective(o.port, port);
  }

  /**
   * With no core, the core base URI falls back to the collection base URI,
   * exactly when the collection is not empty in PHP's sense ("" and "0" are).
   */
  lemma CoreFallsBackToCollection(o: Options)
    requires o.core == None && o.collection.Some?
    ensures CoreBaseUri(o) == CollectionBaseUri(o) <==> !PhpEmpty(o.collection)
  {
  }

  /** A configured path with one extra trailing '/' yields the same URIs once stored through setPath. */
  lemma TrailingSlashInConfiguredPath(o: Options, p: string)
    requires !EndsWithSlash(p)
    ensures var slashed := o.(path := TrimTrailingSlash(p + "/"));
            var plain := o.(path := TrimTrailingSlash(p));
            && ServerUri(slashed) == ServerUri(plain)
            && CollectionBaseUri(slashed) == CollectionBaseUri(plain)
            && CoreBaseUri(slashed) == CoreBaseUri(plain)
  {
  }

  /** With the defaults the server URI is that of the standard Solr example instance. */
  lemma DefaultServerUri()
    ensures ServerUri(Defaults()) == "http://127.0.0.1:8983/solr/"
    ensures CollectionBaseUri(Defaults()) == "http://127.0.0.1:8983/solr/"
    ensures CoreBaseUri(Defaults()) == "http://127.0.0.1:8983/solr/"
  {
  }

  /**
   * The endpoint of the techproducts integration setup: its option array
   * (host, port, path "/solr/" and the core "techproducts") over the
   * defaults, then the initialisation hook.
   */
  method TechproductsEndpoint() returns (e: Endpoint)
    ensures e.options.path == "/solr"
    ensures ServerUri(e.options) == "http://127.0.0.1:8983/solr/"
    ensures CoreBaseUri(e.options) == "http://127.0.0.1:8983/solr/techproducts/"
    ensures CollectionBaseUri(e.options) == "http://127.0.0.1:8983/solr/"
  {
    e := new Endpoint();
    e.options := e.options.(host := "127.0.0.1", port := 8983, path := "/solr/", core := Some("techproducts"));
    e.Init();
    assert e.options == Defaults().(core := Some("techproducts"));
    DefaultServerUri();
  }
}
