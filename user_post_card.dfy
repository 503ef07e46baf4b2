/**
 * The profile page's post card: content truncation with a default of 150
 * characters, the case-sensitive category colour table and the displayed
 * author name. Its initials helper is the same text as the feed card's,
 * `PostCard.GetInitials`.
 */
module UserPostCard {
  import opened Types
  import PostCard

  /** The default `maxLength` of `truncateContent`. */
  const DefaultMaxLength: nat := 150

  /**
   * `truncateContent`: content no longer than `maxLength` is returned whole;
   * longer content becomes its first `maxLength` characters followed by "...".
   */
  function TruncateContent(content: string, maxLength: nat): (r: string)
    ensures |content| <= maxLength ==> r == content
    ensures |content| > maxLength ==> |r| == maxLength + 3 && r[..maxLength] == content[..maxLength] && r[maxLength..] == "..."
  {
    if |content| <= maxLength then content else content[..maxLength] + "..."
  }

  /**
   * Truncation leaves the content as it is exactly when the content is
   * short enough, or when it already ends in "..." right after the first
   * `maxLength` characters (then cutting and re-appending gives it back).
   */
  lemma TruncateUnchangedIff(content: string, maxLength: nat)
    ensures TruncateContent(content, maxLength) == content <==>
              |content| <= maxLength || content[maxLength..] == "..."
  {
    var r := TruncateContent(content, maxLength);
    if |content| > maxLength {
      if r == content {
        assert content[maxLength..] == r[maxLength..];
      }
      if content[maxLength..] == "..." {
        assert content == content[..maxLength] + content[maxLength..];
      }
    }
  }

  const GrayKategori: string := "bg-gray-100 text-gray-800 hover:bg-gray-200"

  /** The `colors` table of `getKategoriColor`. */
  const KategoriColors: map<string, string> := map[
    "TUGAS" := "bg-blue-100 text-blue-800 hover:bg-blue-200",
    "MATERI" := "bg-green-100 text-green-800 hover:bg-green-200",
    "DISKUSI" := "bg-purple-100 text-purple-800 hover:bg-purple-200",
    "PERTANYAAN" := "bg-amber-100 text-amber-800 hover:bg-amber-200",
    "INFO" := "bg-red-100 text-red-800 hover:bg-red-200"
  ]

  /** `getKategoriColor`: an exact, case-sensitive table lookup with a gray default (every table entry is non-empty, so `||` only replaces a miss). */
  function KategoriColor(kategori: string): (r: string)
    ensures kategori in KategoriColors ==> r == KategoriColors[kategori]
    ensures kategori !in KategoriColors ==> r == GrayKategori
    ensures r == GrayKategori <==> kategori !in {"TUGAS", "MATERI", "DISKUSI", "PERTANYAAN", "INFO"}
  {
    if kategori in KategoriColors && KategoriColors[kategori] != "" then KategoriColors[kategori] else GrayKategori
  }

  /**
   * The two cards disagree on letter case: the feed card colours "tugas" as
   * TUGAS, the profile card falls back to gray.
   */
  lemma CardsDisagreeOnCase()
    ensures PostCard.CategoryColor("tugas") == PostCard.BlueBadge
    ensures KategoriColor("tugas") == GrayKategori
  {
    assert Js.Upper("tugas") == "TUGAS";
  }

  /** The name shown on the card. */
  function DisplayName(post: Post): (name: string)
    ensures post.isAnonymous ==> name == "Anonymous"
    ensures !post.isAnonymous ==> name == post.author.name
  {
    if post.isAnonymous then "Anonymous" else post.author.name
  }

  /** The body text of the card: the post's content truncated at the default length. */
  function CardContent(post: Post): (text: string)
    ensures |text| <= DefaultMaxLength + 3
  {
    TruncateContent(post.content, DefaultMaxLength)
  }
}
