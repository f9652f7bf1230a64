/** Newline-delimited framing of the local IPC (src/ipc/server.ts, src/ipc/client.ts): both
    ends append what arrives to a bounded buffer and cut it at the first newline. */
module IpcFrames {

  const FRAME_BYTES := 1024 * 1024

  /** UTF-8 length; the socket decodes whole characters, so a chunk never splits one. */
  function CharBytes(c: char): nat {
    var n := c as int;
    if n < 0x80 then 1 else if n < 0x800 then 2 else if n < 0x10000 then 3 else 4
  }

  function Bytes(s: string): nat {
    if s == "" then 0 else CharBytes(s[0]) + Bytes(s[1..])
  }

  function IndexOf(s: string, c: char): (i: int)
    ensures i == -1 ==> c !in s
    ensures i != -1 ==> 0 <= i < |s| && s[i] == c && c !in s[..i]
  {
    if s == "" then -1
    else if s[0] == c then 0
    else
      var i := IndexOf(s[1..], c);
      if i == -1 then -1 else
        assert s[..i + 1] == [s[0]] + s[1..][..i];
        i + 1
  }

  datatype Fed = Pending(buffer: string) | Overflow | Line(line: string, rest: string)

  function Feed(buffer: string, chunk: string): Fed {
    var b := buffer + chunk;
    if Bytes(b) > FRAME_BYTES then Overflow
    else
      var i := IndexOf(b, '\n');
      if i == -1 then Pending(b) else Line(b[..i], b[i + 1..])
  }

  function Concat(chunks: seq<string>): string {
    if chunks == [] then "" else chunks[0] + Concat(chunks[1..])
  }

  lemma {:induction false} BytesOfConcat(a: string, b: string)
    ensures Bytes(a + b) == Bytes(a) + Bytes(b)
  {
    if a == "" {
      assert a + b == b;
    } else {
      assert (a + b)[1..] == a[1..] + b;
      BytesOfConcat(a[1..], b);
    }
  }

  lemma {:induction false} FirstNewline(line: string, rest: string)
    requires '\n' !in line
    ensures IndexOf(line + "\n" + rest, '\n') == |line|
  {
    if line == "" {
      assert (line + "\n" + rest)[0] == '\n';
    } else {
      assert (line + "\n" + rest)[1..] == line[1..] + "\n" + rest;
      FirstNewline(line[1..], rest);
    }
  }

  /** Everything before the newline only fills the buffer. */
  lemma FeedPrefix(buffer: string, chunk: string, line: string, rest: string)
    requires '\n' !in line && Bytes(line) + 1 <= FRAME_BYTES
    requires buffer + chunk + rest == line + "\n"
    ensures rest != "" ==> Feed(buffer, chunk) == Pending(buffer + chunk)
    ensures rest == "" ==> Feed(buffer, chunk) == Line(line, "")
  {
    var b := buffer + chunk;
    BytesOfConcat(b, rest);
    BytesOfConcat(line, "\n");
    if rest == "" {
      assert b == line + "\n" && line + "\n" + "" == line + "\n";
      FirstNewline(line, "");
      assert b[..|line|] == line && b[|line| + 1..] == "";
    } else {
      assert b == (line + "\n")[..|b|] == line[..|b|];
      assert '\n' !in b;
    }
  }
}
