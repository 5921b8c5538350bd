/**
 * The trace header (`Received:`) that Postal adds to a message it accepts, the trace
 * field of section 3.6.7 of RFC 5322: an optional `from` clause naming the peer,
 * then the `by` clause naming this host and the date.
 */
module ReceivedHeader {
  import opened Wrappers

  /** The current instant; only the date formatter looks inside it. */
  type Time = int

  /** The two configured local hostnames, either of which may be unset. */
  datatype Config = Config(smtpHostname: Option<string>, webHostname: Option<string>)

  /** The Postal server the message arrived for; its privacy flag is a nullable column. */
  datatype MailServer = MailServer(privacyMode: Option<bool>)

  datatype HeaderError = InvalidMethod(methodName: string)

  /**
   * The method symbols that have a local hostname. A method name here stands for the Ruby
   * symbol (`:smtp`, `:http`); a String argument, which the symbol-keyed table would miss, is
   * not distinguished.
   */
  const SMTP: string := "smtp"
  const HTTP: string := "http"

  /** `OUR_HOSTNAMES`: which local hostname each delivery method announces. */
  function OurHostnames(config: Config): (r: map<string, Option<string>>)
    ensures r.Keys == {SMTP, HTTP}
    ensures r[SMTP] == config.smtpHostname && r[HTTP] == config.webHostname
  {
    map[SMTP := config.smtpHostname, HTTP := config.webHostname]
  }

  /** `OUR_HOSTNAMES[method]`: nil both for an unknown method and for an unset hostname. */
  function HostnameFor(config: Config, methodName: string): (r: Option<string>)
    ensures methodName != SMTP && methodName != HTTP ==> r == None
    ensures methodName == SMTP ==> r == config.smtpHostname
    ensures methodName == HTTP ==> r == config.webHostname
  {
    var hostnames := OurHostnames(config);
    if methodName in hostnames then hostnames[methodName] else None
  }

  /** The `by` clause that closes every header. */
  function ByClause(ourHostname: string, date: string): string {
    "by " + ourHostname + " with SMTP; " + date
  }

  /** The `from` clause naming the peer by its reverse-resolved name and its address. */
  function FromClause(peerHostname: string, ipAddress: string): string {
    "from SMTP (" + peerHostname + " [" + ipAddress + "]) "
  }

  predicate EndsWith(s: string, suffix: string) {
    |suffix| <= |s| && s[|s| - |suffix|..] == suffix
  }

  predicate StartsWithFrom(s: string) {
    |s| >= 5 && s[..5] == "from "
  }

  /**
   * `ReceivedHeader.generate`. The clock reading `now`, the RFC 2822 date formatter and the
   * reverse resolver `ipToHostname` are inputs. `helo` is accepted and not used.
   */
  function Generate(config: Config, server: Option<MailServer>, helo: string, ipAddress: string,
                    methodName: string, now: Time, rfc2822: Time -> string,
                    ipToHostname: string -> string): (r: Result<string, HeaderError>)
    ensures r.Failure? <==> HostnameFor(config, methodName) == None
    ensures r.Failure? ==> r.error == InvalidMethod(methodName)
    ensures r.Success? ==> EndsWith(r.value, ByClause(HostnameFor(config, methodName).value, rfc2822(now)))
  {
    var ourHostname := HostnameFor(config, methodName);
    if ourHostname.None? then
      Failure(InvalidMethod(methodName))
    else
      var header := ByClause(ourHostname.value, rfc2822(now));
      if server.None? || server.value.privacyMode == Some(false) then
        var withFrom := FromClause(ipToHostname(ipAddress), ipAddress) + header;
        assert withFrom[|withFrom| - |header|..] == header;
        Success(withFrom)
      else
        Success(header)
  }

  /** Any method other than smtp or http is rejected; so is either of those when its hostname is unset. */
  lemma InvalidMethodRejected(config: Config, server: Option<MailServer>, helo: string, ipAddress: string,
                              methodName: string, now: Time, rfc2822: Time -> string, ipToHostname: string -> string)
    ensures methodName != SMTP && methodName != HTTP ==>
      Generate(config, server, helo, ipAddress, methodName, now, rfc2822, ipToHostname) == Failure(InvalidMethod(methodName))
    ensures methodName == SMTP ==>
      (Generate(config, server, helo, ipAddress, methodName, now, rfc2822, ipToHostname).Success? <==> config.smtpHostname.Some?)
    ensures methodName == HTTP ==>
      (Generate(config, server, helo, ipAddress, methodName, now, rfc2822, ipToHostname).Success? <==> config.webHostname.Some?)
  {
  }

  /** With privacy on (or a nil flag) the header is exactly the `by` clause. */
  lemma PrivateHeaderShape(config: Config, server: Option<MailServer>, helo: string, ipAddress: string,
                           methodName: string, now: Time, rfc2822: Time -> string, ipToHostname: string -> string)
    requires HostnameFor(config, methodName).Some?
    requires server.Some? && server.value.privacyMode != Some(false)
    ensures Generate(config, server, helo, ipAddress, methodName, now, rfc2822, ipToHostname)
         == Success("by " + HostnameFor(config, methodName).value + " with SMTP; " + rfc2822(now))
  {
  }

  /** Without a server, or with privacy explicitly off, the peer is named in front of the `by` clause. */
  lemma PublicHeaderShape(config: Config, server: Option<MailServer>, helo: string, ipAddress: string,
                          methodName: string, now: Time, rfc2822: Time -> string, ipToHostname: string -> string)
    requires HostnameFor(config, methodName).Some?
    requires server.None? || server.value.privacyMode == Some(false)
    ensures Generate(config, server, helo, ipAddress, methodName, now, rfc2822, ipToHostname)
         == Success("from SMTP (" + ipToHostname(ipAddress) + " [" + ipAddress + "]) "
                    + "by " + HostnameFor(config, methodName).value + " with SMTP; " + rfc2822(now))
  {
    var fromClause, byClause := FromClause(ipToHostname(ipAddress), ipAddress), ByClause(HostnameFor(config, methodName).value, rfc2822(now));
    assert fromClause + "by " + HostnameFor(config, methodName).value + " with SMTP; " + rfc2822(now) == fromClause + byClause;
  }

  /** A generated header opens with a `from` clause exactly when there is no server or its privacy flag is false. */
  lemma FromClauseIff(config: Config, server: Option<MailServer>, helo: string, ipAddress: string,
                      methodName: string, now: Time, rfc2822: Time -> string, ipToHostname: string -> string)
    requires HostnameFor(config, methodName).Some?
    ensures var r := Generate(config, server, helo, ipAddress, methodName, now, rfc2822, ipToHostname);
      r.Success? && (StartsWithFrom(r.value) <==> server.None? || server.value.privacyMode == Some(false))
  {
    var hostname, date := HostnameFor(config, methodName).value, rfc2822(now);
    if server.None? || server.value.privacyMode == Some(false) {
      var fromClause := FromClause(ipToHostname(ipAddress), ipAddress);
      assert (fromClause + ByClause(hostname, date))[..5] == fromClause[..5] == "from ";
    } else {
      assert ByClause(hostname, date)[0] == 'b';
    }
  }

  /**
   * Privacy mode leaks nothing about the peer: with privacy not explicitly off, the header is the
   * same whatever the peer address, its HELO name and what reverse resolution would answer
   * (so the resolver's answer is never used).
   */
  lemma PrivacyHidesPeer(config: Config, server: MailServer, methodName: string, now: Time, rfc2822: Time -> string,
                         helo1: string, ip1: string, lookup1: string -> string,
                         helo2: string, ip2: string, lookup2: string -> string)
    requires server.privacyMode != Some(false)
    ensures Generate(config, Some(server), helo1, ip1, methodName, now, rfc2822, lookup1)
         == Generate(config, Some(server), helo2, ip2, methodName, now, rfc2822, lookup2)
  {
  }

  /** The HELO name the peer gave never appears in the header. */
  lemma HeloUnused(config: Config, server: Option<MailServer>, ipAddress: string, methodName: string, now: Time,
                   rfc2822: Time -> string, ipToHostname: string -> string, helo1: string, helo2: string)
    ensures Generate(config, server, helo1, ipAddress, methodName, now, rfc2822, ipToHostname)
         == Generate(config, server, helo2, ipAddress, methodName, now, rfc2822, ipToHostname)
  {
  }
}
