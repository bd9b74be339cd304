/**
 * Fresh product codes and upload file names, shared by the REST and the
 * server-rendered admin controllers. A code is "P" and three zero-padded
 * digits drawn at random until one is not taken; the random draws are a
 * parameter here.
 */
module ProductCodes {
  import opened Wrappers
  import opened Text
  import opened Domain
  import opened Stores

  /** `String.format("%03d", n)` for 0 <= n < 1000. */
  function Pad3(n: int): (r: string)
    requires 0 <= n < 1000
    ensures |r| == 3 && forall k :: 0 <= k < 3 ==> IsDigit(r[k])
  {
    var tens := n / 10;
    [DigitChar(tens / 10), DigitChar(tens % 10), DigitChar(n % 10)]
  }

  /** The three digits read back give the number drawn. */
  lemma Pad3Value(n: int)
    requires 0 <= n < 1000
    ensures DigitsValue(Pad3(n)) == n
  {
    var s := Pad3(n);
    var tens := n / 10;
    assert n == 10 * tens + n % 10;
    assert tens == 10 * (tens / 10) + tens % 10;
    assert s[..2][..1] == [s[0]];
    assert s[..2] == [s[0], s[1]];
    assert DigitsValue(s[..1]) == tens / 10;
    assert DigitsValue(s[..2]) == 10 * (tens / 10) + tens % 10;
  }

  /** The code a draw stands for: "P" and its three digits, which read back as the draw. */
  function CodeFor(n: int): (r: string)
    requires 0 <= n < 1000
    ensures IsGeneratedCode(r)
    ensures DigitsValue(r[1..]) == n
  {
    Pad3Value(n);
    assert ("P" + Pad3(n))[1..] == Pad3(n);
    "P" + Pad3(n)
  }

  /** The shape every generated code has: "P" and three digits. */
  predicate IsGeneratedCode(s: string) {
    |s| == 4 && s[0] == 'P' && forall k :: 1 <= k < 4 ==> IsDigit(s[k])
  }

  /** Different draws give different codes, so a retry really tries another code. */
  lemma CodeForInjective(m: int, n: int)
    requires 0 <= m < 1000 && 0 <= n < 1000
    requires CodeFor(m) == CodeFor(n)
    ensures m == n
  {
    assert CodeFor(m)[1..] == Pad3(m);
    assert CodeFor(n)[1..] == Pad3(n);
    Pad3Value(m);
    Pad3Value(n);
  }

  predicate AllDraws(draws: seq<int>) {
    forall k :: 0 <= k < |draws| ==> 0 <= draws[k] < 1000
  }

  /**
   * The code the do-while loop settles on: the first draw whose code is not
   * taken. None means every draw in the finite stream was taken, where the
   * loop itself would keep drawing.
   */
  function FirstFreeCode(draws: seq<int>, taken: map<string, Product>): (r: Option<string>)
    requires AllDraws(draws)
    ensures r.Some? ==> IsGeneratedCode(r.value) && r.value !in taken
    ensures r.None? <==> forall k :: 0 <= k < |draws| ==> CodeFor(draws[k]) in taken
    ensures r.Some? ==>
      (exists k :: 0 <= k < |draws| && r.value == CodeFor(draws[k])
        && (forall j :: 0 <= j < k ==> CodeFor(draws[j]) in taken))
  {
    if |draws| == 0 then None
    else if CodeFor(draws[0]) !in taken then Some(CodeFor(draws[0]))
    else
      var rest := FirstFreeCode(draws[1..], taken);
      if rest.Some? then
        var k :| 0 <= k < |draws[1..]| && rest.value == CodeFor(draws[1..][k])
          && forall j :: 0 <= j < k ==> CodeFor(draws[1..][j]) in taken;
        assert rest.value == CodeFor(draws[k + 1]);
        assert forall j :: 0 <= j < k + 1 ==> CodeFor(draws[j]) in taken by {
          forall j | 0 <= j < k + 1
            ensures CodeFor(draws[j]) in taken
          {
            if j > 0 {
              assert draws[j] == draws[1..][j - 1];
            }
          }
        }
        rest
      else
        assert forall k :: 1 <= k < |draws| ==> draws[k] == draws[1..][k - 1];
        rest
  }

  /**
   * generateProductCode: draw, format, and draw again while the code is
   * taken. A finite stream of draws that runs out answers None.
   */
  method GenerateProductCode(products: ProductRepository, draws: seq<int>) returns (code: Option<string>)
    requires AllDraws(draws)
    ensures code == FirstFreeCode(draws, products.rows)
  {
    var k := 0;
    while k < |draws|
      invariant 0 <= k <= |draws|
      invariant FirstFreeCode(draws, products.rows) == FirstFreeCode(draws[k..], products.rows)
    {
      var candidate := "P" + Pad3(draws[k]);
      if candidate !in products.rows {
        return Some(candidate);
      }
      assert draws[k..][1..] == draws[k + 1..];
      k := k + 1;
    }
    code := None;
  }

  /**
   * getFileExtension: "" for a missing name or a name without '.', else
   * the suffix from the last '.' on, the dot included.
   */
  function FileExtension(name: Option<string>): (r: string)
    ensures name.None? || LastIndexOf(name.value, '.') < 0 <==> r == []
    ensures r != [] ==>
      && name.Some? && |r| <= |name.value| && r == name.value[|name.value| - |r|..]
      && r[0] == '.' && (forall k :: 1 <= k < |r| ==> r[k] != '.')
  {
    if name.None? then ""
    else
      var i := LastIndexOf(name.value, '.');
      if i == -1 then "" else name.value[i..]
  }

  /** The name `addProduct` gives an upload: code, '_', clock reading, extension. */
  function AddedImageName(code: string, millis: nat, original: Option<string>): string {
    code + "_" + NatString(millis) + FileExtension(original)
  }

  /**
   * The REST saveFile's name AS WRITTEN: the extension already starts with
   * '.', yet another '.' is put before it.
   */
  function SaveFileNameAsWritten(code: string, millis: nat, original: Option<string>): string {
    var name := if original.None? then code + "_unknown" else original.value;
    var ext := FileExtension(Some(name));
    code + "_" + NatString(millis) + (if ext == [] then "" else "." + ext)
  }

  /** An upload "cat.jpg" for P001 at time 5 is stored as "P001_5..jpg". */
  lemma SaveFileNameDoubleDot()
    ensures SaveFileNameAsWritten("P001", 5, Some("cat.jpg")) == "P001_5..jpg"
    ensures SaveFileNameAsWritten("P001", 5, Some("cat.jpg")) != AddedImageName("P001", 5, Some("cat.jpg"))
  {
    assert LastIndexOf("cat.jpg", '.') == 3;
    assert "cat.jpg"[3..] == ".jpg";
    assert NatString(5) == "5";
  }

  /** The REST saveFile's name as evidently intended: the extension appended once. */
  function SaveFileName(code: string, millis: nat, original: Option<string>): string {
    var name := if original.None? then code + "_unknown" else original.value;
    code + "_" + NatString(millis) + FileExtension(Some(name))
  }

  /**
   * The intended name agrees with the one `addProduct` gives the same
   * upload, and taking its extension off leaves exactly code, '_' and the
   * clock reading whenever the code has no '.'.
   */
  lemma SaveFileNameIntended(code: string, millis: nat, original: string)
    requires forall k :: 0 <= k < |code| ==> code[k] != '.'
    ensures SaveFileName(code, millis, Some(original)) == AddedImageName(code, millis, Some(original))
    ensures var name := SaveFileName(code, millis, Some(original));
      var ext := FileExtension(Some(name));
      ext == FileExtension(Some(original)) && name == code + "_" + NatString(millis) + ext
  {
    var stem := code + "_" + NatString(millis);
    var ext := FileExtension(Some(original));
    var name := stem + ext;
    assert forall k :: 0 <= k < |stem| ==> stem[k] != '.' by {
      forall k | 0 <= k < |stem|
        ensures stem[k] != '.'
      {
        if k < |code| {
          assert stem[k] == code[k];
        } else if k > |code| {
          assert stem[k] == NatString(millis)[k - |code| - 1];
        }
      }
    }
    if ext == [] {
      assert name == stem;
      assert LastIndexOf(name, '.') < 0;
    } else {
      var i := LastIndexOf(name, '.');
      assert name[|stem|] == '.';
      assert i >= |stem|;
      assert forall k :: |stem| < k < |name| ==> name[k] == ext[k - |stem|];
      assert name[i..] == ext;
    }
  }

  /**
   * The admin form's saveFile name: clock reading, '_', the original name;
   * a missing name becomes "unknown_" and an earlier clock reading.
   */
  function AdminUploadName(first: nat, second: nat, original: Option<string>): (r: string)
    ensures original.Some? ==> r == NatString(second) + "_" + original.value
    ensures original.None? ==> r == NatString(second) + "_unknown_" + NatString(first)
  {
    var name := if original.None? then "unknown_" + NatString(first) else original.value;
    NatString(second) + "_" + name
  }
}
