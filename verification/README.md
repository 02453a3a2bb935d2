# Solarium Endpoint, modelled in Dafny

Solarium is a PHP client library for Apache Solr. An `Endpoint` describes one
Solr server target: scheme, host, port, base path, collection, core, timeout,
leader flag and HTTP basic-auth credentials. From these options it builds the
base URIs that requests are sent to:

- the server URI `scheme://host:port` + path + `/`;
- the collection base URI, which is the server URI followed by `collection/`;
- the core base URI, which is the server URI followed by `core/`. The core
  falls back to the collection when no core is set.

The model has three modules:

- `Wrappers` holds `Option`, which stands for a PHP value that may be null.
- `Decimal` turns an integer into decimal text, as PHP does when it
  concatenates an int into a string. It also has a parser for that text. They
  are proved inverse in both directions.
- `Client` mirrors the PHP class. The option array is the record `Options`.
  The plain getters are its field selectors: getKey is `key`, getHost `host`,
  getPort `port`, getPath `path`, getScheme `scheme`, getTimeout `timeout`,
  getCollection `collection` and isLeader `leader`. getCore,
  getAuthentication and the URI builders are functions of the record. The
  class `Endpoint` holds the record in its field `options`. Its setters and
  the `Init` hook are methods that replace exactly the options they set.

Two points where the source's own text and its code part ways:

- The docblock of `init` (src/Core/Client/Endpoint.php:363) says the path is
  "cleaned of trailing slashes". The code of `setPath`
  (src/Core/Client/Endpoint.php:126-128) removes only ONE trailing `/`, as its
  own docblock at line 118 says. A configured path `"/solr//"` is stored as
  `"/solr/"`. The model follows the code; `TrimTrailingSlash` states exactly
  when the stored path still ends in `/`.
- `getCoreBaseUri` tests its segment with PHP's `empty()`, which treats `""`
  and `"0"` as empty (src/Core/Client/Endpoint.php:271). `getCollectionBaseUri`
  tests only for null (src/Core/Client/Endpoint.php:252). So, with no core set,
  the two URIs agree exactly when the collection is neither `""` nor `"0"`
  (`CoreFallsBackToCollection`), not for every collection that is set.

## Model

| member | source | states |
|---|---|---|
| `Client.Endpoint.constructor` | src/Core/Client/Endpoint.php:20-29 | a new endpoint holds the default options: http, 127.0.0.1, 8983, "/solr", no collection, no core, timeout 5, not leader, no key, no credentials |
| `Client.DefaultServerUri` | src/Core/Client/Endpoint.php:20-29 | with the defaults, the server, collection and core base URIs are all "http://127.0.0.1:8983/solr/" |
| `Client.TrimTrailingSlash` | src/Core/Client/Endpoint.php:124-132 | the stored path plus "/" gives back the argument exactly when the argument ends in "/"; otherwise the argument is kept unchanged; the result still ends in "/" iff the argument ended in "//" |
| `Client.Endpoint.SetPath` | src/Core/Client/Endpoint.php:115-142 | afterwards the path option is the argument with one trailing "/" removed; every other option is unchanged |
| `Client.Endpoint.Init` | src/Core/Client/Endpoint.php:360-376 | walking the option names, the path is passed through setPath exactly once: the stored path becomes the one-slash normalisation of the configured path, and every other option is unchanged |
| `Client.Core` | src/Core/Client/Endpoint.php:180-192 | getCore returns the core option when set, and the collection option (which may be null) otherwise |
| `Client.ServerUri` | src/Core/Client/Endpoint.php:296-304 | the server URI begins with scheme "://" host ":", ends with path "/", and so always ends in "/"; `PortInServerUri` pins the whole string |
| `Client.PortInServerUri` | src/Core/Client/Endpoint.php:301-304 | the server URI is exactly "scheme://host:", then the port's decimal text (which parses back to the port), then path "/", with nothing else in between |
| `Client.ServerUriDeterminesPort` | src/Core/Client/Endpoint.php:301-304 | two endpoints that differ only in the port have different server URIs |
| `Client.CollectionBaseUri` | src/Core/Client/Endpoint.php:240-257 | the collection base URI is the server URI when the collection is null, and the server URI + collection + "/" otherwise (even for the empty collection) |
| `Client.CoreBaseUri` | src/Core/Client/Endpoint.php:259-276 | the core base URI is server URI + core + "/" for a core that is not empty; with no core, it is server URI + collection + "/" for a collection that is not empty; when the core, or the collection it falls back to, is null, "" or "0", it is the server URI |
| `Client.CoreFallsBackToCollection` | src/Core/Client/Endpoint.php:266-276 | with no core and a collection set, the core and collection base URIs are equal iff the collection is neither "" nor "0" |
| `Client.BaseUri` | src/Core/Client/Endpoint.php:278-294 | the deprecated getBaseUri always returns the core base URI |
| `Client.TrailingSlashInConfiguredPath` | examples/config.dist.php:10 | a path configured with one extra trailing "/" (such as "/solr/") gives the same server, collection and core base URIs as the path without it |
| `Client.TechproductsEndpoint` | tests/Integration/AbstractTechproductsTest.php:18-28 | the integration option array (127.0.0.1, 8983, "/solr/", core "techproducts") over the defaults, after the initialisation hook, stores path "/solr", has server URI "http://127.0.0.1:8983/solr/" and core base URI "http://127.0.0.1:8983/solr/techproducts/" |
| `Client.GetAuthentication` | src/Core/Client/Endpoint.php:324-335 | getAuthentication returns the stored username and password, null where unset |
| `Client.Endpoint.SetAuthentication` | src/Core/Client/Endpoint.php:306-322 | sets username and password together, changes no other option, and getAuthentication then returns exactly that pair |
| `Client.Endpoint.SetKey` | src/Core/Client/Endpoint.php:46-67 | the key option becomes the argument; every other option is unchanged |
| `Client.Endpoint.SetHost` | src/Core/Client/Endpoint.php:69-90 | the host option becomes the argument; every other option is unchanged |
| `Client.Endpoint.SetPort` | src/Core/Client/Endpoint.php:92-113 | the port option becomes the argument; every other option is unchanged |
| `Client.Endpoint.SetCollection` | src/Core/Client/Endpoint.php:144-165 | the collection option becomes the argument (possibly null); every other option is unchanged |
| `Client.Endpoint.SetCore` | src/Core/Client/Endpoint.php:167-178 | the core option becomes the argument (possibly null); every other option is unchanged |
| `Client.Endpoint.SetTimeout` | src/Core/Client/Endpoint.php:194-215 | the timeout option becomes the argument; every other option is unchanged |
| `Client.Endpoint.SetScheme` | src/Core/Client/Endpoint.php:217-238 | the scheme option becomes the argument; every other option is unchanged |
| `Client.Endpoint.SetLeader` | src/Core/Client/Endpoint.php:337-358 | the leader flag becomes the argument; every other option is unchanged |
| `Decimal.NatToDecimal` | src/Core/Client/Endpoint.php:303 | the decimal text of a natural number is a non-empty run of digits with no leading zero, and starts with "0" only for zero |
| `Decimal.IntToDecimal` | src/Core/Client/Endpoint.php:303 | the decimal text of an int starts with "-" iff the int is negative, followed by canonical digits |
| `Decimal.IntRoundTrip` | src/Core/Client/Endpoint.php:303 | parsing the decimal text of any int gives back that int |
| `Decimal.TextRoundTrip` | src/Core/Client/Endpoint.php:303 | any text the parser accepts is exactly the decimal text of the int it parses to |
| `Decimal.DecimalInjective` | src/Core/Client/Endpoint.php:303 | distinct ints have distinct decimal text |

## Left out

- `__toString` builds a debugging summary with `print_r`. It promises no behaviour, so it is not modelled.
- `getBaseUri` raises a deprecation notice through `trigger_error`. That is a runtime side effect, and only its return value is modelled.
- The `Configurable` base class is not part of this model. This covers `getOption`/`setOption`, construction from a configuration array, and when `init` runs. The constructor gives the defaults, and `Init` is a public method.
- `Client.Endpoint.Init` walks a fixed list of the option names. PHP walks the keys actually present in the option array. Only `path` has an effect, and it is present in every option array, so the result is the same.
- PHP type coercion and TypeErrors are not modelled; options are typed fields. For example, `getKey()` on an endpoint with no key raises a TypeError in PHP. In the model the key is simply `None`.
- `Client.Endpoint.SetAuthentication` only stores the pair. The docblock's rule that a null username or password disables authentication (src/Core/Client/Endpoint.php:309) is enforced, if at all, by code outside this class, which is not part of this model.
- Ports and timeouts are unbounded integers. PHP's 64-bit int range is not modelled.
- The setters return the endpoint itself for chaining. The model's setter methods return nothing.
- The endpoint registry, components, request builders, response parsers and client orchestration are not part of this model. Their code is not among the files modelled here.
- `src/Component/Facet/FacetInterface.php` only declares signatures, so there is nothing to model.
- `tests/Integration/AbstractTechproductsTest.php` talks to a live Solr server over the network. Only its endpoint configuration is modelled, by `TechproductsEndpoint`.
