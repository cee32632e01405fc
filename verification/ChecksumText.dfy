/** How a reader takes a checksum file apart: lines, and in each line a digest, two spaces and a name. */
module ChecksumText {
  function IndexOf(text: string, c: char): (n: nat)
    ensures n <= |text|
  {
    if text == [] || text[0] == c then 0 else IndexOf(text[1..], c) + 1
  }

  /** Everything up to the first space, and what follows the two spaces. */
  function ReadLine(line: string): (string, string) {
    var n := IndexOf(line, ' ');
    if n + 2 <= |line| then (line[..n], line[n + 2..]) else (line, "")
  }

  /** The digests and names of a checksum file, line by line. */
  function ReadSums(text: string): seq<(string, string)> {
    var n := IndexOf(text, '\n');
    if n == |text| then [] else [ReadLine(text[..n])] + ReadSums(text[n + 1..])
  }

  lemma {:induction false} IndexOfFirst(a: string, c: char, b: string)
    requires c !in a
    ensures IndexOf(a + [c] + b, c) == |a|
  {
    var text := a + [c] + b;
    if a != [] {
      IndexOfFirst(a[1..], c, b);
      assert text[0] == a[0] && text[1..] == a[1..] + [c] + b;
    } else {
      assert text[0] == c;
    }
  }

  lemma ReadsLine(digest: string, name: string)
    requires ' ' !in digest
    ensures ReadLine(digest + "  " + name) == (digest, name)
  {
    var line := digest + "  " + name;
    assert line == digest + [' '] + ([' '] + name);
    IndexOfFirst(digest, ' ', [' '] + name);
    assert line[..|digest|] == digest && line[|digest| + 2..] == name;
  }

  lemma ReadsFirstLine(line: string, rest: string)
    requires '\n' !in line
    ensures ReadSums(line + "\n" + rest) == [ReadLine(line)] + ReadSums(rest)
  {
    var text := line + ['\n'] + rest;
    assert line + "\n" + rest == text;
    IndexOfFirst(line, '\n', rest);
    assert text[..|line|] == line && text[|line| + 1..] == rest;
  }

  /** One line of digest and name, and whatever follows it. */
  lemma ReadsOneLine(digest: string, name: string, rest: string)
    requires ' ' !in digest && '\n' !in digest && '\n' !in name
    ensures ReadSums(digest + "  " + name + "\n" + rest) == [(digest, name)] + ReadSums(rest)
    ensures ReadSums("") == []
  {
    ReadsLine(digest, name);
    ReadsFirstLine(digest + "  " + name, rest);
  }
}
