# Monero RPC client: client builder and `make_uri` request, modelled in Dafny

This project models two parts of a PHP client library for the Monero daemon
and wallet JSON-RPC APIs:

- **The client builder** (`ClientBuilder`). It is a mutable accumulator
  around a fixed URL. Fluent setters store an HTTP client, HTTP headers, a
  username/password pair and a logger. `build` then picks one of three client
  classes from a client-type enumeration. If no HTTP client is held, it
  discovers one and keeps it. It passes credentials only when both halves are
  set, and it hands over the header array.
  In `client_builder.dfy` (module `Builder`), the class `ClientBuilder` has the
  same six fields. Each method states its new state through the pure function
  `Step`. `Assemble` is what `build` returns for given field values. Lemmas
  over call sequences (`Run`) prove the URL never changes, the last header
  write and the last authentication win, and an HTTP client, once held, is
  reused by every later build until `withHttpClient` replaces it.
- **PHP arrays as dictionaries** (`php_array.dfy`, module `PhpArray`). The
  header array is an insertion-ordered list of unique string keys.
  Assigning to an existing key replaces its value in place, and a new key is
  appended at the end.
- **The `make_uri` request** (`make_uri_request.dfy`, module `MakeUri`).
  `MakeUriRequest::create` allocates a parameter object, assigns its five
  properties and wraps it in a request named `make_uri`. The per-property
  JSON attributes (wire name, omit-empty flag) are kept as data in `Schema`.
  `EncodeFields` interprets any such schema whose wire names are distinct,
  and `Encode` is the resulting JSON object.

`wrappers.dfy` holds `Option` (PHP's nullable values) and `Result`.

External collaborators enter as parameters:
- HTTP-client discovery is the `discovery: Option<HttpClient>` argument of
  `Build`. `None` stands for discovery throwing.
- HTTP clients and loggers are values known only by their identity.

## Model

| member | source | states |
|---|---|---|
| `PhpArray.Set` | src/ClientBuilder.php:52 | after `$a[$k] = $v` the key reads back `v` and every other key reads as before; an existing key keeps its position, a new key is appended at the end |
| `PhpArray.SetKeepsUniqueKeys` | src/ClientBuilder.php:52 | writing to an array with unique keys never duplicates a key |
| `PhpArray.LastWriteWins` | src/ClientBuilder.php:52 | two writes to one key leave the array exactly as the second write alone would |
| `Builder.Step` | src/ClientBuilder.php:40-68 | no builder call changes the URL |
| `Builder.StepKeepsConsistent` | src/ClientBuilder.php:40-68 | every builder call keeps the builder consistent: unique header keys, username set exactly when password is |
| `Builder.KindOf` | src/ClientBuilder.php:75-79 | DAEMON gives the daemon client, DAEMON_OTHER the daemon-other client, and exactly the other types give the wallet client |
| `Builder.Assemble` | src/ClientBuilder.php:71-88 | `build` fails only when no client is held and discovery fails; the built client has the type's class, the builder's URL, logger and full header array, the held or else the discovered HTTP client, and credentials exactly when both username and password are set, equal to them |
| `Builder.RunKeepsUrl` | src/ClientBuilder.php:16 | no sequence of builder calls changes the URL |
| `Builder.BuiltUrlIsConstructorUrl` | src/ClientBuilder.php:76-78 | every client built after any calls has the URL given to the constructor |
| `Builder.RunKeepsConsistent` | src/ClientBuilder.php:50-62 | any sequence of calls keeps header keys unique and username/password set together |
| `Builder.LastHeaderWins` | src/ClientBuilder.php:50-55 | a header reads as the value of the last `withHttpHeader` for its name, whatever calls follow |
| `Builder.LastAuthenticationWins` | src/ClientBuilder.php:81-83 | after `withAuthentication(u, p)` and no later one, the fields hold u and p and every successful build carries credentials (u, p) |
| `Builder.NoAuthenticationNoCredentials` | src/ClientBuilder.php:81-83 | without any `withAuthentication`, no built client gets credentials |
| `Builder.HttpClientKept` | src/ClientBuilder.php:73 | a held HTTP client survives every call except `withHttpClient`, builds included |
| `Builder.ExplicitHttpClientUsed` | src/ClientBuilder.php:40-45 | after `withHttpClient(c)` and no later one, every build succeeds with c, whatever discovery would yield |
| `Builder.DiscoveredHttpClientReused` | src/ClientBuilder.php:73 | after a build that discovered a client, every later build (until `withHttpClient`) uses that same client and ignores discovery |
| `Builder.ClientBuilder.constructor` | src/ClientBuilder.php:31-34 | stores the URL; HTTP client, headers, credentials and logger start empty |
| `Builder.ClientBuilder.WithHttpClient` | src/ClientBuilder.php:40-45 | returns the same builder; sets the HTTP client and nothing else |
| `Builder.ClientBuilder.WithHttpHeader` | src/ClientBuilder.php:50-55 | returns the same builder; the header reads back the new value, all other headers are unchanged, nothing else changes |
| `Builder.ClientBuilder.WithAuthentication` | src/ClientBuilder.php:57-62 | returns the same builder; sets username and password and nothing else |
| `Builder.ClientBuilder.WithLogger` | src/ClientBuilder.php:64-68 | returns the same builder; sets the logger and nothing else |
| `Builder.ClientBuilder.Build` | src/ClientBuilder.php:71-88 | returns `Assemble` of the fields as they were; the only field it changes is the HTTP client, by `??=` |
| `Builder.ClientBuilder.BuildWalletClient` | src/ClientBuilder.php:90-94 | same result and effect as `Build` with WALLET; a wallet client |
| `Builder.ClientBuilder.BuildDaemonClient` | src/ClientBuilder.php:96-100 | same result and effect as `Build` with DAEMON; a daemon client |
| `Builder.ClientBuilder.BuildDaemonOtherClient` | src/ClientBuilder.php:102-106 | same result and effect as `Build` with DAEMON_OTHER; a daemon-other client |
| `MakeUri.SchemaWireNames` | src/WalletRpc/MakeUriRequest.php:24-50 | the declared wire names are `address`, `amount` (property names), `payment_id`, `recipient_name`, `tx_description` (explicit names), all distinct; only `address` lacks the omit-empty flag |
| `MakeUri.MakeUriRequest.FieldValue` | src/WalletRpc/MakeUriRequest.php:24-50 | the address is never null; no field value is a JSON null |
| `MakeUri.MakeUriRequest.EncodeFields` | src/WalletRpc/MakeUriRequest.php:24-50 | for a schema with distinct wire names, a key appears exactly when its field is set or not omit-empty, carries the field's value, and no other key appears |
| `MakeUri.MakeUriRequest.Encode` | src/WalletRpc/MakeUriRequest.php:24-50 | `address` is always present with the address; `amount`, `payment_id`, `recipient_name`, `tx_description` are present exactly when the field is non-null, with its value; no other key, no null value |
| `MakeUri.EncodeInjective` | src/WalletRpc/MakeUriRequest.php:28-50 | requests with equal encodings have equal fields, so absent and null are never confused |
| `MakeUri.MakeUriRequest.Create` | src/WalletRpc/MakeUriRequest.php:52-66 | a fresh parameter object whose five fields equal the arguments, in a request named `make_uri` |
| `MakeUri.CreateWithAddressOnly` | src/WalletRpc/MakeUriRequest.php:53-57 | `create(a)` leaves the four optional fields null, so its encoding is exactly `{address: a}` |

## Left out

- PSR-18 discovery (src/ClientBuilder.php:73) is a library call. It is the parameter `discovery` of `Build`, with `None` for "throws". The source lets that exception propagate unchanged. The model calls it `HttpClientNotFound`; there is no separate configuration-error kind.
- The client classes `WalletRpcClient`, `DaemonRpcClient`, `DaemonOtherClient` and their `setCredentials`/`setHeaders` are not part of this model. `Built` records only what the builder passes to them.
- The declaration of the `RpcClientType` enumeration is not among the modelled sources. The model gives it the three cases the builder names, so the `default` arm of the `match` covers WALLET only.
- PHP turns numeric-string array keys (such as `"123"`) into integer keys. `PhpArray` keeps every key as a string. That conversion is injective, so lookups, last-write-wins and insertion order are the same; only the type of such a key in the array passed to `setHeaders` differs.
- The logger is carried by identity only. Logging itself is not modelled.
- `Address`, `Amount` and the JSON library behind the attributes (`Square\Pjson`) are not part of this model. `Address` and `Amount` are plain values. Of `RpcRequest`, only its method name and parameter object are modelled. `Encode` produces the key/value object the attributes declare and stops before JSON text.
- MakeUri.MakeUriRequest.Encode: omits an optional key only when its field is null, as the attributes declare. Whether the JSON library also drops empty strings or a zero amount is not modelled.
- The JSON-RPC envelope codec, error classification, the HTTP transport with digest authentication and the facade methods are not part of this model.
- The response DTOs (`SyncInfoResponse`, `GetFeeEstimateResponse`) and `SetLogHashRateRequest` hold data only. The integration test needs a live daemon and wallet. None of them is modelled.
