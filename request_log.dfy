/** The request-logging middleware: after an `/api` request finishes it
    writes one line with the HTTP method, path, status, duration and, when the
    handler sent a JSON body, that body; a line longer than 80 characters is
    cut to its first 79 characters and an ellipsis. */
module RequestLog {
  import opened Js
  import opened Text

  const MaxLineLength: nat := 80
  const Ellipsis: char := '\U{2026}'

  /** The line before truncation. `json` is the serialised response body,
      present when the handler called `res.json` with a truthy value. */
  function FullLine(verb: string, path: string, status: nat, durationMs: nat, json: Option<string>): (line: string)
    ensures StartsWith(line, verb + " " + path + " " + Decimal(status) + " in ")
    ensures json.None? ==> EndsWith(line, "ms")
    ensures json.Some? ==> EndsWith(line, "ms :: " + json.value)
  {
    verb + " " + path + " " + Decimal(status) + " in " + Decimal(durationMs) + "ms"
    + (if json.Some? then " :: " + json.value else "")
  }

  /** The 80-character bound applied to a log line. */
  function Truncate(line: string): (r: string)
    ensures |r| <= MaxLineLength
    ensures |line| <= MaxLineLength ==> r == line
    ensures |line| > MaxLineLength ==>
      |r| == MaxLineLength && r[..MaxLineLength - 1] == line[..MaxLineLength - 1] && r[MaxLineLength - 1] == Ellipsis
  {
    if |line| > MaxLineLength then line[..MaxLineLength - 1] + [Ellipsis] else line
  }

  /** Truncating twice is truncating once. */
  lemma TruncateIdempotent(line: string)
    ensures Truncate(Truncate(line)) == Truncate(line)
  {
  }

  /** A start of the line that fits in 79 characters survives truncation. */
  lemma TruncateKeepsPrefix(line: string, prefix: string)
    requires StartsWith(line, prefix) && |prefix| < MaxLineLength
    ensures StartsWith(Truncate(line), prefix)
  {
    if |line| > MaxLineLength {
      var r := Truncate(line);
      assert r[..|prefix|] == r[..MaxLineLength - 1][..|prefix|];
      assert line[..|prefix|] == line[..MaxLineLength - 1][..|prefix|];
    }
  }

  /** A line comes back unchanged exactly when it fits in 80 characters. */
  lemma TruncateLosesNothingWhenShort(line: string)
    ensures Truncate(line) == line <==> |line| <= MaxLineLength
  {
    if |line| > MaxLineLength {
      assert |Truncate(line)| < |line|;
    }
  }

  /** The middleware's `finish` handler: `None` when nothing is logged. */
  method LogRequest(verb: string, path: string, status: nat, durationMs: nat, json: Option<string>)
    returns (logged: Option<string>)
    ensures logged.Some? <==> StartsWith(path, "/api")
    ensures logged.Some? ==> logged.value == Truncate(FullLine(verb, path, status, durationMs, json))
  {
    if !StartsWith(path, "/api") {
      return None;
    }
    var logLine := verb + " " + path + " " + Decimal(status) + " in " + Decimal(durationMs) + "ms";
    if json.Some? {
      logLine := logLine + " :: " + json.value;
    }
    assert logLine == FullLine(verb, path, status, durationMs, json);
    if |logLine| > MaxLineLength {
      logLine := logLine[..MaxLineLength - 1] + [Ellipsis];
    }
    logged := Some(logLine);
  }

  /** Every logged line fits in 80 characters, and keeps the HTTP method and path
      in front whenever those fit in 79. */
  lemma LoggedLineShape(verb: string, path: string, status: nat, durationMs: nat, json: Option<string>)
    requires |verb + " " + path| < MaxLineLength
    ensures |Truncate(FullLine(verb, path, status, durationMs, json))| <= MaxLineLength
    ensures StartsWith(Truncate(FullLine(verb, path, status, durationMs, json)), verb + " " + path)
  {
    var full := FullLine(verb, path, status, durationMs, json);
    var head := verb + " " + path;
    assert full[..|head|] == head;
    TruncateKeepsPrefix(full, head);
  }
}
