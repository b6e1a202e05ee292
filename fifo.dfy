/**
 * The command reader of `watch_fifo`: each line read from the named pipe is split at its
 * first space, and the verb must be exactly `reload`. `read_line` keeps the line
 * terminator, so a line as the client writes it is `"reload <name>\n"`.
 */
module Fifo {
  import opened Wrappers
  import opened Text

  datatype Command = Reload(arg: string)

  const RELOAD := "reload"

  /** The verb and the argument of a line: `buf.splitn(2, " ")`. */
  function SplitLine(line: string): (parts: seq<string>)
    ensures 1 <= |parts| <= 2
  {
    SplitOnce(line, ' ')
  }

  /**
   * The line parse of src/daemon/mod.rs: `reload <arg>` gives `Reload` of the argument
   * with its surrounding whitespace trimmed; any other verb, and `reload` with no
   * argument, give no command.
   */
  function ParseLine(line: string): (r: Option<Command>)
    ensures r.Some? <==> |line| >= 7 && line[..7] == RELOAD + " "
    ensures r.Some? ==> r.value == Reload(Trim(line[7..]))
  {
    var parts := SplitLine(line);
    if parts[0] == RELOAD && |parts| == 2 then
      ReloadPrefix(line);
      Some(Reload(Trim(parts[1])))
    else
      ReloadPrefix(line);
      None
  }

  /** The line parse of src/daemon.rs: as above, but the argument is passed on untrimmed. */
  function LegacyParseLine(line: string): (r: Option<Command>)
    ensures r.Some? <==> |line| >= 7 && line[..7] == RELOAD + " "
    ensures r.Some? ==> r.value == Reload(line[7..])
  {
    var parts := SplitLine(line);
    if parts[0] == RELOAD && |parts| == 2 then
      ReloadPrefix(line);
      Some(Reload(parts[1]))
    else
      ReloadPrefix(line);
      None
  }

  /** The split yields the verb `reload` and an argument exactly when the line starts with `"reload "`. */
  lemma ReloadPrefix(line: string)
    ensures var parts := SplitLine(line);
            (parts[0] == RELOAD && |parts| == 2) <==> (|line| >= 7 && line[..7] == RELOAD + " ")
    ensures var parts := SplitLine(line);
            parts[0] == RELOAD && |parts| == 2 ==> parts[1] == line[7..]
  {
    if |line| >= 7 && line[..7] == RELOAD + " " {
      assert line == RELOAD + [' '] + line[7..];
      SplitOnceAt(RELOAD, ' ', line[7..]);
    }
  }

  /** The dead branch of the reader: the split never comes back empty. */
  lemma SplitNeverEmpty(line: string)
    ensures |SplitLine(line)| >= 1
    ensures SplitLine(line)[0] == line || line == SplitLine(line)[0] + " " + SplitLine(line)[1]
  {
  }

  /** A line as the client writes it, `"reload <name>\n"`, gives `Reload(name)`. */
  lemma ParseClientLine(name: string)
    requires Trimmed(name)
    ensures ParseLine(RELOAD + " " + name + "\n") == Some(Reload(name))
  {
    var line := RELOAD + " " + name + "\n";
    assert line[7..] == name + "\n";
    TrimLine(name);
  }

  /** The same line in the legacy reader gives an argument that still ends with the newline. */
  lemma LegacyParseClientLine(name: string)
    ensures LegacyParseLine(RELOAD + " " + name + "\n") == Some(Reload(name + "\n"))
  {
    var line := RELOAD + " " + name + "\n";
    assert line[7..] == name + "\n";
  }

  /** A bare `reload` line, newline and all, is an unknown verb: the newline is part of the verb. */
  lemma BareReloadRejected()
    ensures ParseLine(RELOAD + "\n") == None && LegacyParseLine(RELOAD + "\n") == None
    ensures ParseLine(RELOAD) == None && LegacyParseLine(RELOAD) == None
  {
    var line := RELOAD + "\n";
    assert |line| == 7 && line[6] == '\n';
    assert line[..7] != RELOAD + " " by {
      assert (RELOAD + " ")[6] == ' ';
    }
    assert |RELOAD| == 6;
  }

  /** Only the first space splits: the argument of the new reader is the whole rest of the line, trimmed. */
  lemma ArgumentKeepsInnerSpaces(a: string, b: string)
    requires Trimmed(a + " " + b)
    ensures ParseLine(RELOAD + " " + a + " " + b) == Some(Reload(a + " " + b))
  {
    var line := RELOAD + " " + a + " " + b;
    assert line[7..] == a + " " + b;
    TrimTrimmed(a + " " + b);
  }
}
