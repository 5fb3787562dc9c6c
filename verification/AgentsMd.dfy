/**
 The byte budget for AGENTS.md files. A backward pass hands out the budget from the deepest file upwards; a
 separate forward pass assembles the annotated contents. Sizes are UTF-8 byte counts.
 */
module AgentsMd {
  import opened Wrappers
  import opened Text

  const MAX_BYTES := 32 * 1024

  /** Files come root first; contents are stripped and not empty. */
  datatype File = File(path: string, content: string)

  function Width(c: char): (w: nat)
    ensures 1 <= w <= 4
  {
    if c < '\U{0080}' then 1 else if c < '\U{0800}' then 2 else if c < '\U{10000}' then 3 else 4
  }

  /** How many bytes of UTF-8 (RFC 3629, section 3) a code point takes. */
  lemma WidthIsUtf8(c: char)
    ensures var n, w := c as int, Width(c);
      (w == 1 <==> n < 128) && (w == 2 <==> 128 <= n < 2048) && (w == 3 <==> 2048 <= n < 65536) && (w == 4 <==> n >= 65536)
  {
  }

  function Bytes(s: string): nat {
    if s == [] then 0 else Width(s[0]) + Bytes(s[1..])
  }

  lemma {:induction false} BytesConcat(a: string, b: string)
    ensures Bytes(a + b) == Bytes(a) + Bytes(b)
  {
    if a == [] {
      assert a + b == b;
    } else {
      BytesConcat(a[1..], b);
      assert (a + b)[1..] == a[1..] + b;
    }
  }

  /** The text of the first `n` bytes when an incomplete last character is ignored. */
  function Take(s: string, n: int): (r: string)
    ensures r <= s
    ensures Bytes(r) <= n || r == []
  {
    if s == [] || Width(s[0]) > n then [] else [s[0]] + Take(s[1..], n - Width(s[0]))
  }

  lemma {:induction false} StripShrinks(s: string)
    ensures Bytes(Strip(s)) <= Bytes(s)
  {
    StripLeftShrinks(s);
    var left := StripLeft(s);
    var r := StripRight(left);
    assert left == r + left[|r|..];
    BytesConcat(r, left[|r|..]);
  }

  lemma {:induction false} StripLeftShrinks(s: string)
    ensures Bytes(StripLeft(s)) <= Bytes(s)
  {
    if s != [] && IsSpace(s[0]) {
      StripLeftShrinks(s[1..]);
    }
  }

  function Annotation(path: string): string {
    "<!-- From: " + path + " -->\n"
  }

  const SEPARATOR := "\n\n"

  function AnnotationBytes(path: string): (n: nat)
    ensures n > 0
  {
    AnnotationIsNotEmpty(path);
    Bytes(Annotation(path))
  }

  lemma AnnotationIsNotEmpty(path: string)
    ensures Bytes(Annotation(path)) > 0
  {
    assert Annotation(path)[0] == '<';
  }

  /** What one file gets when `remaining` bytes are left, and what is left then. */
  function Granted(file: File, separator: nat, remaining: int): (string, int) {
    var left := remaining - (AnnotationBytes(file.path) + separator);
    if left <= 0 then ("", 0)
    else
      var content := if Bytes(file.content) > left then Strip(Take(file.content, left)) else file.content;
      (content, left - Bytes(content))
  }

  /** The backward pass. `separator` is what the last file of `files` pays for the file after it. */
  function Allocated(files: seq<File>, separator: nat, remaining: int): (r: seq<string>)
    ensures |r| == |files|
  {
    if files == [] then []
    else
      var (content, left) := Granted(files[|files| - 1], separator, remaining);
      Allocated(files[..|files| - 1], 2, left) + [content]
  }

  function Parts(files: seq<File>, contents: seq<string>): seq<string>
    requires |files| == |contents|
  {
    if files == [] then []
    else
      var last := |files| - 1;
      var before := Parts(files[..last], contents[..last]);
      if contents[last] == "" then before else before + [Annotation(files[last].path) + contents[last]]
  }

  function Joined(parts: seq<string>): string {
    if parts == [] then ""
    else if |parts| == 1 then parts[0]
    else Joined(parts[..|parts| - 1]) + SEPARATOR + parts[|parts| - 1]
  }

  function Contents(files: seq<File>): (r: seq<string>)
    ensures |r| == |files|
  {
    seq(|files|, i requires 0 <= i < |files| => files[i].content)
  }

  /** The text without any budget. */
  function FullText(files: seq<File>): string {
    Joined(Parts(files, Contents(files)))
  }

  function MergedText(files: seq<File>): string {
    Joined(Parts(files, Allocated(files, 0, MAX_BYTES)))
  }

  method Grant(file: File, separatorCost: nat, budget: int) returns (content: string, remaining: int)
    ensures content == Granted(file, separatorCost, budget).0
    ensures remaining == Granted(file, separatorCost, budget).1
  {
    content := file.content;
    remaining := budget - (AnnotationBytes(file.path) + separatorCost);
    if remaining <= 0 {
      return "", 0;
    }
    if Bytes(content) > remaining {
      content := Strip(Take(content, remaining));
    }
    remaining := remaining - Bytes(content);
  }

  /** The backward pass over the array of budgeted contents. */
  method AllocateBudget(discovered: seq<File>) returns (budgeted: array<string>)
    ensures fresh(budgeted) && budgeted[..] == Allocated(discovered, 0, MAX_BYTES)
  {
    var n := |discovered|;
    var remaining := MAX_BYTES;
    budgeted := new string[n](_ => "");
    var i := n;
    ghost var done := [];
    assert discovered[..n] == discovered;
    while i > 0
      invariant 0 <= i <= n && budgeted[i..] == done
      invariant Allocated(discovered, 0, MAX_BYTES)
             == Allocated(discovered[..i], if i == n then 0 else 2, remaining) + done
    {
      AllocatedStep(discovered, i, if i == n then 0 else 2, remaining, done);
      i := i - 1;
      var content;
      content, remaining := Grant(discovered[i], if i < n - 1 then 2 else 0, remaining);
      budgeted[i] := content;
      done := [content] + done;
      assert budgeted[i..] == [content] + budgeted[i + 1..];
    }
    assert budgeted[..] == budgeted[0..];
  }

  lemma AllocatedStep(files: seq<File>, i: nat, separator: nat, remaining: int, done: seq<string>)
    requires 0 < i <= |files|
    ensures var granted := Granted(files[i - 1], separator, remaining);
      Allocated(files[..i], separator, remaining) + done
      == Allocated(files[..i - 1], 2, granted.1) + ([granted.0] + done)
  {
    assert files[..i][..i - 1] == files[..i - 1];
    var before := Allocated(files[..i - 1], 2, Granted(files[i - 1], separator, remaining).1);
    var content := Granted(files[i - 1], separator, remaining).0;
    assert before + [content] + done == before + ([content] + done);
  }

  /** The forward pass over the same files. */
  method AssembleParts(discovered: seq<File>, budgeted: array<string>) returns (parts: seq<string>)
    requires budgeted.Length == |discovered|
    ensures parts == Parts(discovered, budgeted[..])
  {
    parts := [];
    for j := 0 to |discovered|
      invariant parts == Parts(discovered[..j], budgeted[..j])
    {
      assert discovered[..j + 1][..j] == discovered[..j] && budgeted[..j + 1][..j] == budgeted[..j];
      if budgeted[j] != "" {
        parts := parts + [Annotation(discovered[j].path) + budgeted[j]];
      }
    }
    assert discovered[..|discovered|] == discovered && budgeted[..budgeted.Length] == budgeted[..];
  }

  method LoadAgentsMd(discovered: seq<File>) returns (r: Option<string>)
    ensures r == if Parts(discovered, Allocated(discovered, 0, MAX_BYTES)) == [] then None
                 else Some(MergedText(discovered))
  {
    if discovered == [] {
      return None;
    }
    var budgeted := AllocateBudget(discovered);
    var parts := AssembleParts(discovered, budgeted);
    return if parts == [] then None else Some(Joined(parts));
  }

  // ---------------------------------------------------------------- the bound

  /** The bytes an assembly takes when every part also pays for a separator. */
  function PaidBytes(files: seq<File>, contents: seq<string>): nat
    requires |files| == |contents|
  {
    if files == [] then 0
    else
      var last := |files| - 1;
      PaidBytes(files[..last], contents[..last])
      + if contents[last] == "" then 0 else AnnotationBytes(files[last].path) + Bytes(contents[last]) + 2
  }

  lemma {:induction false} GrantedWithinBudget(file: File, separator: nat, remaining: int)
    ensures var (content, left) := Granted(file, separator, remaining);
      && left >= 0
      && (content != "" ==> AnnotationBytes(file.path) + separator + Bytes(content) + left <= remaining)
      && (remaining >= 0 ==> left <= remaining)
  {
    var left := remaining - (AnnotationBytes(file.path) + separator);
    if left > 0 && Bytes(file.content) > left {
      StripShrinks(Take(file.content, left));
    }
  }

  /** Everything handed out in front of a file that pays for its separator stays within what was left. */
  lemma {:induction false} AllocatedWithinBudget(files: seq<File>, remaining: int)
    requires remaining >= 0
    ensures PaidBytes(files, Allocated(files, 2, remaining)) <= remaining
  {
    if files != [] {
      var last := |files| - 1;
      var (content, left) := Granted(files[last], 2, remaining);
      GrantedWithinBudget(files[last], 2, remaining);
      AllocatedWithinBudget(files[..last], left);
      assert Allocated(files, 2, remaining)[..last] == Allocated(files[..last], 2, left);
    }
  }

  lemma {:induction false} JoinedBytes(files: seq<File>, contents: seq<string>)
    requires |files| == |contents|
    ensures Bytes(Joined(Parts(files, contents))) + (if Parts(files, contents) == [] then 0 else 2)
         == PaidBytes(files, contents)
  {
    if files != [] {
      var last := |files| - 1;
      JoinedBytes(files[..last], contents[..last]);
      var before := Parts(files[..last], contents[..last]);
      if contents[last] != "" {
        var part := Annotation(files[last].path) + contents[last];
        BytesConcat(Annotation(files[last].path), contents[last]);
        assert (before + [part])[..|before|] == before;
        BytesConcat(Joined(before) + SEPARATOR, part);
        BytesConcat(Joined(before), SEPARATOR);
        assert Bytes(SEPARATOR) == 2 by { assert SEPARATOR[1..] == "\n"; }
      }
    }
  }

  /** The merged text never exceeds the limit, whatever the files are. */
  lemma MergedTextWithinLimit(files: seq<File>)
    ensures Bytes(MergedText(files)) <= MAX_BYTES
  {
    if files != [] {
      var last := |files| - 1;
      var contents := Allocated(files, 0, MAX_BYTES);
      var (content, left) := Granted(files[last], 0, MAX_BYTES);
      GrantedWithinBudget(files[last], 0, MAX_BYTES);
      AllocatedWithinBudget(files[..last], left);
      JoinedBytes(files, contents);
      assert contents[..last] == Allocated(files[..last], 2, left);
    }
  }

  // ---------------------------------------------------------------- what a file gets

  /** No longer prefix fits the bytes. */
  lemma {:induction false} TakeIsLongest(s: string, n: int, p: string)
    requires p <= s && Bytes(p) <= n
    ensures p <= Take(s, n)
    decreases |s|
  {
    if p != [] {
      assert p[0] == s[0] && p[1..] <= s[1..];
      TakeIsLongest(s[1..], n - Width(s[0]), p[1..]);
      assert p == [p[0]] + p[1..];
    }
  }

  /** `p` is the longest beginning of `s` that takes at most `n` bytes. */
  ghost predicate IsLongestFit(p: string, s: string, n: int) {
    p <= s && Bytes(p) <= n && forall q | q <= s && Bytes(q) <= n :: q <= p
  }

  lemma TakeIsLongestFit(s: string, n: nat)
    ensures IsLongestFit(Take(s, n), s, n)
  {
    forall q | q <= s && Bytes(q) <= n ensures q <= Take(s, n) {
      TakeIsLongest(s, n, q);
    }
  }

  /**
   A file that fits into what its annotation and separator leave is granted whole, a longer one as much of it as fits,
   stripped; it gets nothing only if nothing is left. What it gets is what is missing afterwards.
   */
  lemma FileGetsWhatFits(file: File, separator: nat, remaining: int)
    ensures var (content, left) := Granted(file, separator, remaining);
      var room := remaining - Bytes(Annotation(file.path)) - separator;
      && (room <= 0 ==> content == "" && left == 0)
      && (room > 0 ==> left == room - Bytes(content))
      && (room > 0 && Bytes(file.content) <= room ==> content == file.content)
      && (room > 0 && Bytes(file.content) > room ==>
            exists p :: IsLongestFit(p, file.content, room) && content == Strip(p))
  {
    var room := remaining - Bytes(Annotation(file.path)) - separator;
    if room > 0 && Bytes(file.content) > room {
      TakeIsLongestFit(file.content, room);
    }
  }

  // ---------------------------------------------------------------- deeper files first

  /** What the deeper files get does not depend on the shallower ones. */
  lemma {:induction false} DeeperFilesComeFirst(shallow: seq<File>, deep: seq<File>, separator: nat, remaining: int)
    requires deep != []
    ensures Allocated(shallow + deep, separator, remaining)[|shallow|..] == Allocated(deep, separator, remaining)
  {
    var files := shallow + deep;
    var last := |deep| - 1;
    var (content, left) := Granted(deep[last], separator, remaining);
    assert files[..|files| - 1] == shallow + deep[..last];
    if last > 0 {
      DeeperFilesComeFirst(shallow, deep[..last], 2, left);
    }
  }

  /** The bytes the full text of `files` takes, when its last file pays `separator` for the file after it. */
  function Needed(files: seq<File>, separator: nat): nat {
    if files == [] then 0
    else
      var file := files[|files| - 1];
      Needed(files[..|files| - 1], 2) + AnnotationBytes(file.path) + separator + Bytes(file.content)
  }

  ghost predicate NoEmptyFile(files: seq<File>) {
    forall i | 0 <= i < |files| :: files[i].content != ""
  }

  lemma {:induction false} FittingFilesAreWhole(files: seq<File>, separator: nat, remaining: int)
    requires NoEmptyFile(files) && Needed(files, separator) <= remaining
    ensures Allocated(files, separator, remaining) == Contents(files)
  {
    if files != [] {
      var last := |files| - 1;
      var file := files[last];
      assert Bytes(file.content) > 0;
      FittingFilesAreWhole(files[..last], 2, remaining - AnnotationBytes(file.path) - separator - Bytes(file.content));
      assert Contents(files) == Contents(files[..last]) + [file.content];
    }
  }

  lemma {:induction false} NeededIsPaid(files: seq<File>)
    requires NoEmptyFile(files)
    ensures Needed(files, 2) == PaidBytes(files, Contents(files))
    ensures files != [] ==> Parts(files, Contents(files)) != []
  {
    if files != [] {
      var last := |files| - 1;
      NeededIsPaid(files[..last]);
      assert Contents(files)[..last] == Contents(files[..last]);
    }
  }

  /** Nothing is cut exactly when the full text fits the limit. */
  lemma NothingIsCutIfItFits(files: seq<File>)
    requires NoEmptyFile(files)
    ensures MergedText(files) == FullText(files) <==> Bytes(FullText(files)) <= MAX_BYTES
  {
    MergedTextWithinLimit(files);
    NeededIsPaid(files);
    JoinedBytes(files, Contents(files));
    if files != [] && Bytes(FullText(files)) <= MAX_BYTES {
      assert Needed(files, 0) + 2 == Needed(files, 2);
      FittingFilesAreWhole(files, 0, MAX_BYTES);
    }
  }
}
