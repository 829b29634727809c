/** Log entries and the console line format of src/config/logger.js
    (the `consoleFormat` printf callback). */
module Logging {
  import opened Wrappers
  import opened Text

  /** One call to a logger: its level, message and the metadata the
      console format reads. */
  datatype LogEntry = LogEntry(level: string, message: string, stack: Option<string>, correlationId: Option<string>)

  /** JavaScript truthiness of a possibly undefined string. */
  predicate Truthy(x: Option<string>) {
    x.Some? && x.value != ""
  }

  /** `correlationId ? `[${correlationId}] ` : ''` */
  function CorrelationPrefix(correlationId: Option<string>): (p: string)
    ensures Truthy(correlationId) ==> p == "[" + correlationId.value + "] "
    ensures !Truthy(correlationId) ==> p == ""
  {
    if Truthy(correlationId) then "[" + correlationId.value + "] " else ""
  }

  /** `stack || message`: the stack trace when there is one. */
  function LineText(entry: LogEntry): (t: string)
    ensures Truthy(entry.stack) ==> t == entry.stack.value
    ensures !Truthy(entry.stack) ==> t == entry.message
  {
    if Truthy(entry.stack) then entry.stack.value else entry.message
  }

  /** The part of a console line before its text. */
  function LineHead(timestamp: Option<string>, entry: LogEntry): string {
    Render(timestamp) + " " + CorrelationPrefix(entry.correlationId) + "[" + entry.level + "]: "
  }

  /** The console line: `${timestamp} ${corrId}[${level}]: ${stack || message}`. */
  function ConsoleLine(timestamp: Option<string>, entry: LogEntry): (line: string)
    ensures |LineText(entry)| <= |line| && line[|line| - |LineText(entry)|..] == LineText(entry)
    ensures !Truthy(entry.correlationId) ==>
      line == Render(timestamp) + " [" + entry.level + "]: " + LineText(entry)
  {
    Render(timestamp) + " " + CorrelationPrefix(entry.correlationId) + "[" + entry.level + "]: " + LineText(entry)
  }

  /** The head of a line holds one '[' for the level, one more for a
      truthy correlation id, and whatever the parts themselves contain. */
  lemma HeadBrackets(timestamp: Option<string>, entry: LogEntry)
    ensures CountChar(LineHead(timestamp, entry), '[') ==
      CountChar(Render(timestamp), '[') + CountChar(entry.level, '[') + 1
      + (if Truthy(entry.correlationId) then 1 + CountChar(entry.correlationId.value, '[') else 0)
  {
    var ts, lv := Render(timestamp), entry.level;
    var p := CorrelationPrefix(entry.correlationId);
    CountCharConcat(ts, " ", '[');
    CountCharConcat(ts + " ", p, '[');
    CountCharConcat(ts + " " + p, "[", '[');
    CountCharConcat(ts + " " + p + "[", lv, '[');
    CountCharConcat(ts + " " + p + "[" + lv, "]: ", '[');
    if Truthy(entry.correlationId) {
      var id := entry.correlationId.value;
      CountCharConcat("[", id, '[');
      CountCharConcat("[" + id, "] ", '[');
    }
  }

  /** Without a correlation id (and with bracket-free timestamp and level)
      the only bracketed segment before the text is the level. The level
      is bracket-free only when colours are off (non-TTY output): the
      console transport colorizes the level before this format, and a
      colour code holds a '['. */
  lemma OneBracketWithoutCorrelation(timestamp: Option<string>, entry: LogEntry)
    requires !Truthy(entry.correlationId)
    requires CountChar(Render(timestamp), '[') == 0 && CountChar(entry.level, '[') == 0
    ensures CountChar(LineHead(timestamp, entry), '[') == 1
  {
    HeadBrackets(timestamp, entry);
  }
}
