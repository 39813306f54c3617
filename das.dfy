/** The text `dasgoclient` prints for a file query, and the locators built
    from it. */
module Das {
  import opened Text

  /** What the `dasgoclient` subprocess gave back. */
  datatype DasReply = DasReply(returnCode: int, stdout: string, stderr: string)

  /** The non-empty strings of `xs`, in order. */
  function NonEmpty(xs: seq<string>): (r: seq<string>)
    ensures |r| <= |xs|
    ensures forall x :: x in r <==> x in xs && x != ""
  {
    if xs == [] then [] else (if xs[0] != "" then [xs[0]] else []) + NonEmpty(xs[1..])
  }

  /** Filtering two pieces is filtering their concatenation: the kept
      strings stay in order, each as often as it occurs. */
  lemma {:induction false} NonEmptyAppend(a: seq<string>, b: seq<string>)
    ensures NonEmpty(a + b) == NonEmpty(a) + NonEmpty(b)
  {
    if a == [] {
      assert a + b == b;
    } else {
      assert (a + b)[1..] == a[1..] + b;
      NonEmptyAppend(a[1..], b);
    }
  }

  /** With `NonEmptyAppend`, fixes the whole result: one string is kept
      exactly when it is not empty. */
  lemma NonEmptyOne(x: string)
    ensures NonEmpty([x]) == if x != "" then [x] else []
  {
    assert [x][1..] == [];
  }

  /** `[f for f in stdout.strip().split("\n") if f]` */
  function DasLines(stdout: string): seq<string> {
    NonEmpty(SplitOn(Strip(stdout), '\n'))
  }

  /** `[redirector + lfn for lfn in lfns]` */
  function Prefixed(redirector: string, lfns: seq<string>): (r: seq<string>)
    ensures |r| == |lfns|
    ensures forall i :: 0 <= i < |lfns| ==> r[i] == redirector + lfns[i]
  {
    if lfns == [] then [] else [redirector + lfns[0]] + Prefixed(redirector, lfns[1..])
  }

  /** A locator as `dasgoclient` prints it: a path with no whitespace. */
  predicate IsLfn(lfn: string) {
    lfn != [] && NoSpace(lfn)
  }

  /** The text `dasgoclient` prints for a list of files: one per line. */
  function Listing(lfns: seq<string>): string
    requires lfns != []
  {
    JoinOn(lfns, '\n') + "\n"
  }

  /** Stripping the listing and cutting it at newlines gives back the files. */
  lemma SplitListing(lfns: seq<string>)
    requires lfns != [] && forall i :: 0 <= i < |lfns| ==> IsLfn(lfns[i])
    ensures SplitOn(Strip(Listing(lfns)), '\n') == lfns
  {
    var body := JoinOn(lfns, '\n');
    forall i | 0 <= i < |lfns| ensures '\n' !in lfns[i] {
      assert IsSpace('\n');
    }
    JoinOnEnds(lfns, '\n');
    assert Strip(body + "\n") == body by {
      assert TrimLeft(body + "\n") == body + "\n";
      assert (body + "\n")[..|body + "\n"| - 1] == body;
    }
    SplitJoinOn(lfns, '\n');
  }

  /** Printing the files one per line and reading the output back yields the
      same files in the same order. */
  lemma DasLinesListing(lfns: seq<string>)
    requires lfns != [] && forall i :: 0 <= i < |lfns| ==> IsLfn(lfns[i])
    ensures DasLines(Listing(lfns)) == lfns
  {
    SplitListing(lfns);
    NonEmptyAll(lfns);
  }

  /** A listing of whitespace-free names holds no `\r`, so text mode reads
      it unchanged. */
  lemma ListingNoCarriageReturn(lfns: seq<string>)
    requires lfns != [] && forall i :: 0 <= i < |lfns| ==> IsLfn(lfns[i])
    ensures UniversalNewlines(Listing(lfns)) == Listing(lfns)
  {
    JoinOnNoCarriageReturn(lfns);
  }

  lemma {:induction false} JoinOnNoCarriageReturn(parts: seq<string>)
    requires |parts| >= 1 && forall i :: 0 <= i < |parts| ==> IsLfn(parts[i])
    ensures '\r' !in JoinOn(parts, '\n')
  {
    assert IsSpace('\r');
    assert '\r' !in parts[0];
    if |parts| > 1 {
      JoinOnNoCarriageReturn(parts[1..]);
    }
  }

  lemma {:induction false} JoinOnEnds(parts: seq<string>, c: char)
    requires |parts| >= 1 && forall i :: 0 <= i < |parts| ==> IsLfn(parts[i])
    ensures var j := JoinOn(parts, c);
      j != [] && !IsSpace(j[0]) && !IsSpace(j[|j| - 1])
  {
    if |parts| > 1 {
      JoinOnEnds(parts[1..], c);
    }
  }

  lemma {:induction false} NonEmptyAll(xs: seq<string>)
    requires forall i :: 0 <= i < |xs| ==> xs[i] != ""
    ensures NonEmpty(xs) == xs
  {
    if xs != [] {
      NonEmptyAll(xs[1..]);
    }
  }
}
