/**
 * The text the supervisor builds: the two process start descriptions (certificate export and
 * `npm run dev`), the generated `vite.config.js`, and the dev-server endpoint URI. Each builder
 * has a partner that reads its text back: the command line the shell finally runs, a parser for
 * the config template, and the URI parser that `new Uri(...)` applies to the endpoint text.
 */
module Commands {
  import opened Wrappers
  import opened Text

  /** What a `ProcessStartInfo` carries here. Every process the supervisor starts also redirects
      its three standard streams and does not use the shell; an empty `workingDirectory` means
      the host's current directory. */
  datatype StartInfo = StartInfo(fileName: string, arguments: string, workingDirectory: string)

  /** The command line a start description finally runs: `cmd /c X` runs `X`; any other
      program runs with its arguments. */
  function CommandLine(si: StartInfo): string
  {
    if si.fileName == "cmd" && |si.arguments| >= 3 && si.arguments[..3] == "/c " then si.arguments[3..]
    else si.fileName + " " + si.arguments
  }

  /** `cmd /c X` runs exactly `X`. */
  lemma ShellRunsWrapped(x: string, workingDirectory: string)
    ensures CommandLine(StartInfo("cmd", "/c " + x, workingDirectory)) == x
  {
    var a := "/c " + x;
    assert a[..3] == "/c " && a[3..] == x;
  }

  /** The arguments `dotnet` receives to export the development certificate, on every platform. */
  function ExportArguments(pfxPath: string, password: string): string
  {
    "dev-certs https -v -ep " + pfxPath + " -p " + password
  }

  /** The certificate export: `cmd /c dotnet ...` on Windows, `dotnet ...` elsewhere. Both run
      the same `dotnet` command line. */
  function CertExportInfo(isWindows: bool, pfxPath: string, password: string): (si: StartInfo)
    ensures si.fileName == "cmd" <==> isWindows
    ensures CommandLine(si) == "dotnet " + ExportArguments(pfxPath, password)
    ensures isWindows ==> si.arguments == "/c dotnet " + ExportArguments(pfxPath, password)
    ensures !isWindows ==> si.arguments == ExportArguments(pfxPath, password)
    ensures si.workingDirectory == []
  {
    var args := ExportArguments(pfxPath, password);
    if isWindows then
      assert "/c dotnet " + args == "/c " + ("dotnet " + args);
      ShellRunsWrapped("dotnet " + args, "");
      StartInfo("cmd", "/c dotnet " + args, "")
    else
      StartInfo("dotnet", args, "")
  }

  /** The dev server: `cmd /c npm run dev` on Windows, `npm run dev` elsewhere, started in the
      SPA source directory. Both run the same `npm` command line. */
  function DevServerInfo(isWindows: bool, sourcePath: string): (si: StartInfo)
    ensures si.fileName == "cmd" <==> isWindows
    ensures CommandLine(si) == "npm run dev"
    ensures isWindows ==> si.arguments == "/c npm run dev"
    ensures !isWindows ==> si.arguments == "run dev"
    ensures si.workingDirectory == sourcePath
  {
    if isWindows then
      assert "/c npm run dev" == "/c " + "npm run dev";
      ShellRunsWrapped("npm run dev", sourcePath);
      StartInfo("cmd", "/c npm run dev", sourcePath)
    else
      StartInfo("npm", "run dev", sourcePath)
  }

  /** The pieces of the `vite.config.js` template around the pfx file name and the passphrase. */
  const ConfigOpening := "export default {\r\n"
  const HttpsOn := "https:true"
  const ConfigHead := ConfigOpening + HttpsOn + ",\r\nhttpsOptions: {\r\npfx: '"
  const ConfigMiddle := "',\r\npassphrase: '"
  const ConfigTail := "'\r\n}\r\n}"

  /** The generated `vite.config.js`: HTTPS on, with the pfx file and its passphrase. */
  function ConfigText(pfxFileName: string, passphrase: string): string
  {
    ConfigHead + (pfxFileName + ConfigMiddle + passphrase) + ConfigTail
  }

  predicate NoQuote(s: string)
  {
    forall k :: 0 <= k < |s| ==> s[k] != '\''
  }

  /** The length of the longest quote-free prefix of `s`. */
  function UntilQuote(s: string): (n: nat)
    ensures n <= |s| && NoQuote(s[..n])
    ensures n < |s| ==> s[n] == '\''
  {
    if s == [] || s[0] == '\'' then 0
    else
      var n := 1 + UntilQuote(s[1..]);
      assert s[..n] == [s[0]] + s[1..][..n - 1];
      n
  }

  /** What lies between `prefix` and `suffix` in `s`, if `s` starts and ends with them. */
  function Unwrap(s: string, prefix: string, suffix: string): (r: Option<string>)
    ensures r.Some? ==> s == prefix + r.value + suffix
  {
    if |s| < |prefix| + |suffix| || s[..|prefix|] != prefix || s[|s| - |suffix|..] != suffix then None
    else
      var body := s[|prefix|..|s| - |suffix|];
      assert s == s[..|prefix|] + body + s[|s| - |suffix|..];
      Some(body)
  }

  lemma UnwrapRoundTrip(prefix: string, body: string, suffix: string)
    ensures Unwrap(prefix + body + suffix, prefix, suffix) == Some(body)
  {
    var s := prefix + body + suffix;
    assert s[..|prefix|] == prefix;
    assert s[|s| - |suffix|..] == suffix;
    assert s[|prefix|..|s| - |suffix|] == body;
  }

  /** Splits `body` into a quote-free value, `separator` (which opens with a quote) and a
      quote-free value. */
  function SplitAtQuote(body: string, separator: string): (r: Option<(string, string)>)
    ensures r.Some? ==> NoQuote(r.value.0) && NoQuote(r.value.1)
    ensures r.Some? ==> body == r.value.0 + separator + r.value.1
  {
    var n := UntilQuote(body);
    var rest := body[n..];
    if |rest| < |separator| || rest[..|separator|] != separator || !NoQuote(rest[|separator|..]) then None
    else
      assert body == body[..n] + rest[..|separator|] + rest[|separator|..];
      Some((body[..n], rest[|separator|..]))
  }

  lemma SplitAtQuoteRoundTrip(first: string, separator: string, second: string)
    requires NoQuote(first) && NoQuote(second)
    requires separator != [] && separator[0] == '\''
    ensures SplitAtQuote(first + separator + second, separator) == Some((first, second))
  {
    var body := first + separator + second;
    assert body[|first|] == '\'';
    assert body[..|first|] == first;
    assert UntilQuote(body) == |first|;
    assert body[|first|..][..|separator|] == separator;
    assert body[|first|..][|separator|..] == second;
  }

  /** Reads the pfx file name and the passphrase back out of a config text, if the text has the
      template's shape with quote-free values. */
  function ParseConfig(text: string): (r: Option<(string, string)>)
    ensures r.Some? ==> NoQuote(r.value.0) && NoQuote(r.value.1)
    ensures r.Some? ==> text == ConfigText(r.value.0, r.value.1)
  {
    var body := Unwrap(text, ConfigHead, ConfigTail);
    if body.None? then None else SplitAtQuote(body.value, ConfigMiddle)
  }

  /** The config text determines the pfx file name and the passphrase it was built from, as long
      as neither holds a quote. */
  lemma ConfigRoundTrip(pfxFileName: string, passphrase: string)
    requires NoQuote(pfxFileName) && NoQuote(passphrase)
    ensures ParseConfig(ConfigText(pfxFileName, passphrase)) == Some((pfxFileName, passphrase))
  {
    UnwrapRoundTrip(ConfigHead, pfxFileName + ConfigMiddle + passphrase, ConfigTail);
    assert ConfigMiddle[0] == '\'';
    SplitAtQuoteRoundTrip(pfxFileName, ConfigMiddle, passphrase);
  }

  /** Every config the supervisor writes turns HTTPS on. */
  lemma ConfigEnablesHttps(pfxFileName: string, passphrase: string)
    ensures Contains(ConfigText(pfxFileName, passphrase), HttpsOn)
  {
    var text := ConfigText(pfxFileName, passphrase);
    var rest := text[|ConfigOpening| + |HttpsOn|..];
    assert text == ConfigOpening + HttpsOn + rest;
    OccursInMiddle(ConfigOpening, HttpsOn, rest);
    ContainsAt(text, HttpsOn, |ConfigOpening|);
  }

  /** `Guid.ToString("N")`: 32 lower-case hexadecimal digits. */
  predicate IsGuidN(s: string)
  {
    |s| == 32 && forall k :: 0 <= k < |s| ==> IsDigit(s[k]) || ('a' <= s[k] <= 'f')
  }

  /** A generated passphrase never holds a quote, so the config always reads back. */
  lemma GuidPassphraseReadsBack(pfxFileName: string, passphrase: string)
    requires NoQuote(pfxFileName) && IsGuidN(passphrase)
    ensures ParseConfig(ConfigText(pfxFileName, passphrase)) == Some((pfxFileName, passphrase))
  {
    ConfigRoundTrip(pfxFileName, passphrase);
  }

  /** The URI of the dev server as `System.Uri` sees it. */
  datatype Uri = Uri(scheme: string, host: string, port: nat)

  const MaxPort := 65535
  const EndpointPrefix := "https://localhost:"

  /** The endpoint text `https://localhost:{port}`. */
  function EndpointText(port: int): string
  {
    EndpointPrefix + IntText(port)
  }

  /** `new Uri(text)` for texts of the shape `https://localhost:<port>`: the port must be a
      decimal number no larger than 65535; anything else throws `UriFormatException` (`None`). */
  function ParseEndpoint(text: string): (r: Option<Uri>)
    ensures r.Some? ==> r.value.scheme == "https" && r.value.host == "localhost" && r.value.port <= MaxPort
  {
    if |text| >= |EndpointPrefix| && text[..|EndpointPrefix|] == EndpointPrefix then
      var digits := text[|EndpointPrefix|..];
      if digits != [] && AllDigits(digits) && DigitsValue(digits) <= MaxPort
      then Some(Uri("https", "localhost", DigitsValue(digits)))
      else None
    else None
  }

  /** The dev-server endpoint `new Uri($"https://localhost:{port}")` builds, or `None` where
      the constructor throws: a URI for `https://localhost` on exactly `port` when it lies in
      0..65535. */
  function Endpoint(port: int): (r: Option<Uri>)
    ensures r == if 0 <= port <= MaxPort then Some(Uri("https", "localhost", port)) else None
  {
    EndpointRoundTrip(port);
    ParseEndpoint(EndpointText(port))
  }

  /** The URI built from the endpoint text carries exactly the configured port, and it can be
      built precisely when the port lies in 0..65535. */
  lemma EndpointRoundTrip(port: int)
    ensures ParseEndpoint(EndpointText(port)) ==
            if 0 <= port <= MaxPort then Some(Uri("https", "localhost", port)) else None
  {
    var text := EndpointText(port);
    assert text[..|EndpointPrefix|] == EndpointPrefix;
    assert text[|EndpointPrefix|..] == IntText(port);
    if port >= 0 {
      DecimalRoundTrip(port);
    }
  }
}
