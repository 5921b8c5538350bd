# Postal: endpoint resolution, the Received header and IP-pool assignment

A Dafny model of three small pieces of Postal, the mail server, each with proofs
of what it promises:

- **`SMTPClient::Server`** (module `SmtpClient`). A remote SMTP server descriptor
  holds a hostname, a port, a TLS mode and optional credentials. Its endpoint
  resolution turns it into the list of endpoints a delivery tries: one endpoint
  for each AAAA answer, then one for each A answer. Each endpoint pairs the server
  object with one address. `Server.Endpoints` is a method with the source's two
  appending loops. It is proved equal to `ExpectedEndpoints`, and the lemmas state
  the promised facts about that function: IPv6 first, resolver order kept, nothing
  dropped or de-duplicated, every endpoint sharing the server.
- **`ReceivedHeader.generate`** (module `ReceivedHeader`). This builds the trace
  field (`Received:`) of section 3.6.7 of RFC 5322 as a pure function. An unknown
  delivery method is an error, and so is one whose local hostname is unset.
  Otherwise the header is `by <host> with SMTP; <date>`. The header gets a leading
  `from SMTP (<peer name> [<peer address>])` only when there is no server or the
  server's privacy flag is exactly `false`. The lemmas give the two exact shapes,
  the if-and-only-if for the `from` clause, and non-interference under privacy:
  the peer's address, HELO name and reverse-DNS answer cannot change the header.
- **`LegacyAPI::IPPoolsController`** (module `LegacyApi`). The `add_pool`,
  `remove_pool` and `assignments` actions update an organisation's `ip_pool_ids`
  in place. An organisation is a class with a mutable `ipPoolIds: seq<int>`. The
  controller holds a nullable organisation. Each action returns a `Response` that
  stands for what it renders. Ruby's array difference `ids - [id]` is `Difference`.
  Lemmas prove that it removes every occurrence, keeps the other ids in order, and
  undoes an append of a fresh id.

The DNS resolver becomes a `Resolver` value made of two functions (`aaaa`, `a`).
The reverse resolver, the clock reading and the RFC 2822 date formatter are
parameters of `Generate`. The configured SMTP and web hostnames are a `Config`
value. Whether the record save succeeds is a boolean parameter, and which IP pools exist is a
function parameter. In the model a failed save
leaves the stored list unchanged; the source may already have written it (see "Left out").

The model follows the code in three places where a reader might expect otherwise:
- Endpoints are not de-duplicated. Two identical answers give two endpoints.
- The privacy flag is a nullable column. Only an explicit `false` adds the `from`
  clause. A `nil` flag omits it, the same as `true`.
- The `helo` argument of `generate` is never used (lemma `HeloUnused`).

## Model

| member | source | states |
|---|---|---|
| SmtpClient.Server.constructor | app/lib/smtp_client/server.rb:12-18 | every field is the given argument; port, TLS mode and credentials are optional keyword arguments |
| SmtpClient.NewFromHostname | app/lib/smtp_client/server.rb:12-17 | a server built from a hostname alone has port 25, TLS mode AUTO and no username or password |
| SmtpClient.Server.Endpoints | app/lib/smtp_client/server.rb:24-36 | the loops return exactly the AAAA endpoints followed by the A endpoints; the addresses are the AAAA answers then the A answers; every endpoint refers to this server |
| SmtpClient.EndpointsFor | app/lib/smtp_client/server.rb:27-29 | wrapping keeps one endpoint per address, in order, each pairing the server with that address |
| SmtpClient.AddressesOfExpected | app/lib/smtp_client/server.rb:25-35 | the endpoint addresses are the AAAA answers followed by the A answers, in resolver order within each family |
| SmtpClient.ExpectedEndpointsLength | app/lib/smtp_client/server.rb:25-35 | the number of endpoints is the number of AAAA answers plus the number of A answers; nothing is dropped or merged |
| SmtpClient.AaaaEndpointsFirst | app/lib/smtp_client/server.rb:21-33 | the first positions hold the AAAA answers in order; the positions after them hold the A answers in order |
| SmtpClient.Ipv6BeforeIpv4 | app/lib/smtp_client/server.rb:20-33 | when AAAA answers are IPv6 literals and A answers are not, every IPv6 endpoint comes before every IPv4 endpoint |
| SmtpClient.EndpointsShareServer | app/lib/smtp_client/server.rb:28-32 | every endpoint refers to the same server object, so port, TLS mode and credentials carry through |
| SmtpClient.NoAnswersNoEndpoints | app/lib/smtp_client/server.rb:25-35 | the result is empty exactly when both lookups return nothing |
| ReceivedHeader.OurHostnames | app/lib/received_header.rb:5-8 | the hostname table has exactly the keys smtp and http, mapped to the configured SMTP and web hostnames (either possibly unset) |
| ReceivedHeader.HostnameFor | app/lib/received_header.rb:13 | looking up a method other than smtp or http gives nil; smtp and http give their configured hostname, which may itself be nil |
| ReceivedHeader.Generate | app/lib/received_header.rb:5-26 | fails (InvalidMethod) exactly when the method has no configured hostname; on success the header ends with the `by <host> with SMTP; <date>` clause |
| ReceivedHeader.InvalidMethodRejected | app/lib/received_header.rb:5-16 | a method other than smtp or http always fails; smtp and http succeed exactly when their hostname is set |
| ReceivedHeader.PrivateHeaderShape | app/lib/received_header.rb:18-25 | with a server whose privacy flag is not `false`, the header is exactly `by <host> with SMTP; <date>` |
| ReceivedHeader.PublicHeaderShape | app/lib/received_header.rb:18-25 | with no server, or privacy exactly `false`, the header is exactly `from SMTP (<reverse name> [<ip>]) by <host> with SMTP; <date>` |
| ReceivedHeader.FromClauseIff | app/lib/received_header.rb:20-22 | for a valid method the header starts with `from ` if and only if there is no server or its privacy flag is exactly `false` |
| ReceivedHeader.PrivacyHidesPeer | app/lib/received_header.rb:18-25 | under privacy the header is identical for any peer address, HELO name and reverse-DNS answer; so the reverse resolver matters only when the `from` clause is emitted |
| ReceivedHeader.HeloUnused | app/lib/received_header.rb:12-26 | the HELO name never influences the header |
| LegacyApi.Difference | app/controllers/legacy_api/ip_pools_controller.rb:230 | no occurrence of the removed id remains, and every other id keeps its multiplicity |
| LegacyApi.DifferenceAppend | app/controllers/legacy_api/ip_pools_controller.rb:230 | removal distributes over concatenation, so the remaining ids keep their relative order |
| LegacyApi.DifferenceAbsent | app/controllers/legacy_api/ip_pools_controller.rb:221-230 | removing an id that is not in the list returns the list unchanged |
| LegacyApi.AppendThenDifference | app/controllers/legacy_api/ip_pools_controller.rb:187-230 | for an id not in the list, appending it and then removing it restores the list exactly |
| LegacyApi.IPPoolsController.AddPool | app/controllers/legacy_api/ip_pools_controller.rb:169-199 | nil organisation: OrganizationNotFound; id present: "already assigned", list unchanged; extended list naming a missing pool: the ids writer raises RecordNotFound, list unchanged; otherwise the list becomes old + [id] after a successful save, and stays the same after a failed one (SaveError) |
| LegacyApi.IPPoolsController.RemovePool | app/controllers/legacy_api/ip_pools_controller.rb:209-242 | nil organisation: OrganizationNotFound; id absent: IPPoolNotAssigned with the id, list unchanged; otherwise the list becomes old - [id] after a successful save, and stays the same after a failed one (SaveError) |
| LegacyApi.IPPoolsController.Assignments | app/controllers/legacy_api/ip_pools_controller.rb:137-159 | nil organisation: OrganizationNotFound; blank `ip_pools`: parameter error, list unchanged; a requested id naming no pool: the ids writer raises RecordNotFound, list unchanged; otherwise the list becomes exactly the requested ids after a successful save, and stays the same after a failed one |
| LegacyApi.AddThenRemovePool | app/controllers/legacy_api/ip_pools_controller.rb:187-233 | calling add_pool then remove_pool with an unassigned id of an existing pool (both saves succeeding) restores the organisation's list |

## Left out

- DNS resolution itself (forward AAAA/A lookups and `ip_to_hostname`) is network I/O. Each lookup is a function parameter, and its failure handling (an empty answer, an "unknown" name) belongs to the resolver.
- `Time.now.utc.rfc2822` is a clock and a library formatter. The instant is an `int` parameter and the formatter an opaque function.
- `Postal::Config` is not modelled; the two hostnames arrive as a `Config` value.
- The exception `generate` raises for an invalid method is not modelled beyond "it fails". Its message interpolates `OUR_HOSTNAMES.join(', ')`, and a Ruby Hash has no `join` method, so the descriptive `Error` is never built. In the source, that path raises a different exception, either a NameError or a NoMethodError. The model keeps only that `generate` fails and returns no header.
- `SMTPClient::Endpoint` (endpoint.rb) is not part of this model. An endpoint is a value holding the server reference and the address, which is all `endpoints` gives it.
- `SSLModes` (ssl_modes.rb) is not part of this model. The TLS mode is `Auto`, the default used here, or any other mode carried by its name.
- ActiveRecord persistence is a boolean `saveSucceeds`: `save`, `reload`, the immediate write that `ip_pool_ids=` can do on an association, and validation messages. The `SaveError` response carries no message.
- IPPoolsController.AddPool, IPPoolsController.RemovePool, IPPoolsController.Assignments: the model promises the stored ids are unchanged after a failed save. In the source, assigning `ip_pool_ids` on a persisted organisation writes the has-many-through association at once, before `save`. So on the `SaveError` path the stored ids may already hold the new list.
- The IP pool table is a function `poolExists` from id to existence. The `ActiveRecord::RecordNotFound` that the ids writer raises for an unknown id propagates out of `add_pool` and `assignments` unrescued, and the model returns it as the `Raised` outcome. Which HTTP response Rails then produces is not modelled.
- Method names of `generate` are strings standing for the Ruby symbols `:smtp` and `:http`. A String argument, which the symbol-keyed table would not match, is not distinguished from the symbol.
- IsBlank: Rails' `blank?` on `params[:ip_pools]` is reduced to "missing or an empty list of ids". A parameter that arrives as a string, or as a list of blank strings, cannot be represented here.
- `set_organization` (the `find_by` lookup and `current_user` fallback) is database and authentication plumbing; the controller is built with the organisation it found, or none.
- `params[:ip_pool_id].to_i` is not modelled; the id arrives already converted to an integer.
- The `index`, `create`, `update`, `delete` and `organisation` actions are thin wrappers over the record store and are not modelled.
- JSON rendering and HTTP status codes are reduced to the `Response` datatype; only the rendered message or error code is kept.
- app/controllers/legacy_api/domains_controller.rb is not part of this model: it is HTTP rendering around DNS verification of a domain.
