/**
 * The guarded loading of a file for the prompt (aifr/file_loader.py): the
 * sensitive-file rule and the fixed order of the checks before a file is read.
 */
module FileLoader {
  import opened Wrappers
  import opened Text

  /** `SENSITIVE_FILE_PATTERNS`. */
  const SensitivePatterns: set<string> := {
    ".env", ".env.local", ".env.production", ".env.development",
    "id_rsa", "id_dsa", "id_ecdsa", "id_ed25519",
    ".pem", ".key", ".pfx", ".p12",
    "credentials", "secrets", ".password", ".vault"
  }

  /** `MAX_FILE_BYTES`: 5 MiB. */
  const MaxFileBytes: int := 5 * 1024 * 1024

  /** `SUPPORTED_EXTENSIONS`. */
  const SupportedExtensions: set<string> := {
    ".txt", ".md", ".py", ".json", ".yaml", ".yml", ".csv", ".log", ".xml", ".ini", ".cfg", ".j2"
  }

  /**
   * What `load_file` observes of the expanded path: whether it exists, its
   * name, the names of its ancestors (`path.parents`), its size in bytes, its
   * suffix as written, and the text `read_text` returns.
   */
  datatype FileInfo = FileInfo(present: bool, name: string, parents: seq<string>, size: int, suffix: string, content: string)

  /** A pattern occurs in the lower-cased file name. */
  predicate NameMatches(name: string) {
    exists pat | pat in SensitivePatterns :: Contains(Lower(name), pat)
  }

  /**
   * `is_sensitive_file`: a pattern occurs in the lower-cased name, or an
   * ancestor directory is named exactly `.ssh`.
   */
  predicate IsSensitiveFile(f: FileInfo) {
    NameMatches(f.name) || ".ssh" in f.parents
  }

  datatype LoadError =
    | FileNotFound(path: string)
    | SensitiveFile(name: string)
    | FileTooLarge(name: string)
    | UnsupportedFile(suffix: string)

  /** The text of each exception. */
  function Message(e: LoadError): string {
    match e
    case FileNotFound(p) => "Nie znaleziono pliku: " + p
    case SensitiveFile(n) =>
      "Plik " + n + " wygląda na wrażliwy (klucze, hasła, .env). Jeśli na pewno chcesz go użyć, zmień nazwę pliku."
    case FileTooLarge(n) => "Plik " + n + " przekracza limit 5MB"
    case UnsupportedFile(s) => "Nieobsługiwany format: " + s
  }

  /**
   * `load_file`: the content and the path once every check passes; otherwise
   * the error of the first check that fails, in the order existence,
   * sensitivity, size (strictly above the limit), lower-cased suffix.
   */
  function LoadFile(pathStr: string, f: FileInfo): (r: Result<(string, FileInfo), LoadError>)
    ensures r.Ok? <==>
      f.present && !IsSensitiveFile(f) && f.size <= MaxFileBytes && Lower(f.suffix) in SupportedExtensions
    ensures r.Ok? ==> r.value == (f.content, f)
    ensures !f.present ==> r == Err(FileNotFound(pathStr))
    ensures r.Err? && r.error.SensitiveFile? ==> f.present && IsSensitiveFile(f)
    ensures r.Err? && r.error.FileTooLarge? ==> f.present && !IsSensitiveFile(f) && f.size > MaxFileBytes
    ensures r.Err? && r.error.UnsupportedFile? ==>
      f.present && !IsSensitiveFile(f) && f.size <= MaxFileBytes && Lower(f.suffix) !in SupportedExtensions
  {
    if !f.present then Err(FileNotFound(pathStr))
    else if IsSensitiveFile(f) then Err(SensitiveFile(f.name))
    else if f.size > MaxFileBytes then Err(FileTooLarge(f.name))
    else if Lower(f.suffix) !in SupportedExtensions then Err(UnsupportedFile(f.suffix))
    else Ok((f.content, f))
  }

  /** A sensitive file is refused whatever its size and suffix, and never read. */
  lemma {:induction false} SensitiveNeverRead(pathStr: string, f: FileInfo)
    requires f.present && IsSensitiveFile(f)
    ensures LoadFile(pathStr, f) == Err(SensitiveFile(f.name))
  {
  }

  /** The size test is strict: a file of exactly 5 MiB passes it. */
  lemma {:induction false} SizeLimitInclusive(pathStr: string, f: FileInfo)
    requires f.present && !IsSensitiveFile(f) && f.size == MaxFileBytes
    ensures LoadFile(pathStr, f) != Err(FileTooLarge(f.name))
  {
  }

  /** The suffix test ignores case: `.TXT` is accepted like `.txt`. */
  lemma {:induction false} SuffixIgnoresCase(pathStr: string, f: FileInfo)
    requires f.present && !IsSensitiveFile(f) && f.size <= MaxFileBytes && f.suffix == ".TXT"
    ensures LoadFile(pathStr, f) == Ok((f.content, f))
  {
    assert Lower(f.suffix) == ".txt";
  }

  // ---------------------------------------------------------------------------
  // Properties of the sensitive-file rule

  /** Lower-casing twice is lower-casing once. */
  lemma {:induction false} LowerCharIdempotent(c: char)
    ensures LowerChar(LowerChar(c)) == LowerChar(c)
  {
  }

  lemma {:induction false} LowerIdempotent(s: string)
    ensures Lower(Lower(s)) == Lower(s)
  {
    forall i | 0 <= i < |s| ensures Lower(Lower(s))[i] == Lower(s)[i] {
      LowerCharIdempotent(s[i]);
    }
  }

  /** The name test ignores case: a name and its lower-cased form are judged alike. */
  lemma {:induction false} SensitiveIgnoresCase(f: FileInfo)
    ensures IsSensitiveFile(f) <==> IsSensitiveFile(f.(name := Lower(f.name)))
  {
    LowerIdempotent(f.name);
  }

  /** Any name containing a pattern, in any case, is sensitive. */
  lemma {:induction false} PatternInName(f: FileInfo, pat: string, i: nat)
    requires pat in SensitivePatterns && OccursAt(Lower(f.name), pat, i)
    ensures IsSensitiveFile(f)
  {
  }

  /** Any file below a directory named `.ssh` is sensitive, whatever its name. */
  lemma {:induction false} SshAncestor(f: FileInfo)
    requires ".ssh" in f.parents
    ensures IsSensitiveFile(f)
  {
  }

  // ---------------------------------------------------------------------------
  // Examples of the file-loader tests

  /** `/home/user/ID_RSA`: the name lower-cases to a pattern. */
  lemma {:induction false} UpperCaseKeyExample(f: FileInfo)
    requires f.name == "ID_RSA"
    ensures IsSensitiveFile(f)
  {
    var low := Lower(f.name);
    assert low == "id_rsa";
    assert OccursAt(low, "id_rsa", 0);
  }

  /** `/home/user/certificate.pem`: the pattern `.pem` ends the name. */
  lemma {:induction false} PemExample(f: FileInfo)
    requires f.name == "certificate.pem"
    ensures IsSensitiveFile(f)
  {
    var low := Lower(f.name);
    assert low[11..15] == ".pem";
    assert OccursAt(low, ".pem", 11);
  }

  /** `/home/user/README.md`: no pattern occurs in `readme.md` and no ancestor is `.ssh`. */
  lemma {:induction false} ReadmeExample(f: FileInfo)
    requires f.name == "README.md" && f.parents == ["user", "home", ""]
    ensures !IsSensitiveFile(f)
  {
    var low := Lower(f.name);
    assert low == "readme.md";
    forall pat | pat in SensitivePatterns ensures !Contains(low, pat) {
      forall i | 0 <= i <= |low| - |pat| ensures !OccursAt(low, pat, i) {
        assert low[i] != pat[0] || low[i + 1] != pat[1];
      }
    }
  }

  /** The `.ssh` test is exact: a directory named `.SSH` does not make `config` sensitive. */
  lemma {:induction false} UpperSshExample(f: FileInfo)
    requires f.name == "config" && f.parents == [".SSH", "user", "home", ""]
    ensures !IsSensitiveFile(f)
  {
    var low := Lower(f.name);
    assert low == "config";
    forall pat | pat in SensitivePatterns ensures !Contains(low, pat) {
      forall i | 0 <= i <= |low| - |pat| ensures !OccursAt(low, pat, i) {
        assert low[i] != pat[0] || low[i + 1] != pat[1];
      }
    }
    assert ".SSH" != ".ssh";
  }
}
