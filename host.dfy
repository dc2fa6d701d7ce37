/**
 * Whether the page is served from a development host. The answer decides
 * whether the session cookie is marked `secure`.
 */
module Host {
  import opened Text

  const LocalHostName: string := "localhost"
  const PrivatePrefix: string := "192.168."

  /** `hostname === "localhost" || hostname.startsWith("192.168.")`. */
  function IsLocal(hostname: string): (r: bool)
    ensures r <==> hostname == LocalHostName || PrivatePrefix <= hostname
  {
    hostname == LocalHostName || StartsWith(hostname, PrivatePrefix)
  }

  /** The cookie is sent over secure transport only off the development hosts. */
  function CookieSecure(hostname: string): (secure: bool)
    ensures secure <==> !(hostname == LocalHostName || PrivatePrefix <= hostname)
  {
    !IsLocal(hostname)
  }

  /** A host whose `i`-th character differs from the prefix's does not start with it. */
  lemma MismatchNotPrefix(hostname: string, i: nat)
    requires i < |hostname| && i < |PrivatePrefix| && hostname[i] != PrivatePrefix[i]
    ensures !(PrivatePrefix <= hostname)
  {
  }

  /** A 192.168 address and the name localhost are local hosts. */
  lemma LocalExamples()
    ensures IsLocal("localhost") && IsLocal("192.168.0.12")
  {
    assert "192.168.0.12"[..|PrivatePrefix|] == PrivatePrefix;
  }

  /**
   * Nothing else is local: the loopback address, the other private ranges,
   * a truncated prefix and a host that merely contains the prefix further on
   * all get a secure cookie.
   */
  lemma NonLocalExamples()
    ensures CookieSecure("127.0.0.1") && CookieSecure("10.0.0.7") && CookieSecure("172.16.0.1")
    ensures CookieSecure("192.168") && CookieSecure("app.192.168.example")
  {
    MismatchNotPrefix("127.0.0.1", 1);
    MismatchNotPrefix("10.0.0.7", 1);
    MismatchNotPrefix("172.16.0.1", 1);
    MismatchNotPrefix("app.192.168.example", 0);
  }
}
