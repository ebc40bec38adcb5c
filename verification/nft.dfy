/**
  The NFT page: a mint form (name and description), a paged gallery of four
  per page, and a detail dialog for the selected NFT.
 */
module Nft {
  import opened Wrappers
  import opened Text
  import opened Paging

  datatype Token = Token(id: int, name: string, image: string, description: string)

  const TokenImage := "/placeholder.svg?height=200&width=200"

  const MockTokens: seq<Token> := [
    Token(1, "BARK #001", TokenImage, "A rare BARK NFT"),
    Token(2, "BARK #002", TokenImage, "An uncommon BARK NFT"),
    Token(3, "BARK #003", TokenImage, "A common BARK NFT"),
    Token(4, "BARK #004", TokenImage, "A legendary BARK NFT"),
    Token(5, "BARK #005", TokenImage, "An epic BARK NFT")
  ]

  const TokensPerPage: nat := 4

  datatype Page = Page(name: string, description: string, isLoading: bool, selected: Option<Token>)

  const InitialPage := Page("", "", false, None)

  /** The mint button needs both fields to hold something besides white space. */
  predicate IsFormValid(p: Page)
    ensures IsFormValid(p) <==> !AllSpace(p.name) && !AllSpace(p.description)
  {
    TrimEmptyIffBlank(p.name);
    TrimEmptyIffBlank(p.description);
    Trim(p.name) != "" && Trim(p.description) != ""
  }

  /**
    A field of spaces, tabs or line breaks alone does not count as filled in,
    whatever the other field holds; padding around real text does not matter.
   */
  lemma BlankFieldsAreInvalid(p: Page)
    ensures !IsFormValid(p.(name := "   "))
    ensures !IsFormValid(p.(description := " \t\n"))
    ensures IsFormValid(p.(name := " x ", description := "y\n"))
  {
    assert AllSpace("   ");
    assert AllSpace(" \t\n");
    assert !IsSpace(" x "[1]);
    assert !IsSpace("y\n"[0]);
  }

  /** After the simulated mint settles both fields are cleared. */
  function MintSettled(p: Page): (r: Page)
    ensures r.name == "" && r.description == "" && !r.isLoading
    ensures r.selected == p.selected
  {
    p.(name := "", description := "", isLoading := false)
  }

  lemma SettledFormIsInvalid(p: Page)
    ensures !IsFormValid(MintSettled(p))
  {
    assert AllSpace("");
  }

  /** The detail dialog is open exactly when an NFT is selected. */
  predicate DialogOpen(p: Page) {
    p.selected.Some?
  }

  /** Clicking a gallery tile selects that NFT and opens the dialog. */
  function Select(p: Page, t: Token): (r: Page)
    ensures DialogOpen(r) && r.selected.value == t
    ensures r.name == p.name && r.description == p.description
    ensures r == p.(selected := r.selected)
  {
    p.(selected := Some(t))
  }

  /** "Close" and the dialog's own dismissal clear the selection. */
  function Close(p: Page): (r: Page)
    ensures !DialogOpen(r)
    ensures r.name == p.name && r.description == p.description
    ensures r == p.(selected := r.selected)
  {
    p.(selected := None)
  }

  /** Opening and closing the dialog leaves the form as it was. */
  lemma SelectThenClose(p: Page, t: Token)
    ensures Close(Select(p, t)) == Close(p)
    ensures !DialogOpen(p) ==> Close(Select(p, t)) == p
  {
  }

  function GalleryPage(page: int): (r: seq<Token>)
    ensures |r| <= TokensPerPage
    ensures page >= 1 ==> r == PageFromZero(MockTokens, page - 1, TokensPerPage)
  {
    PageFromOne(MockTokens, page, TokensPerPage)
  }

  /** Five NFTs at four per page: a full first page and a second page with the last one. */
  lemma GalleryPages()
    ensures TotalPages(|MockTokens|, TokensPerPage) == 2
    ensures GalleryPage(1) == MockTokens[..4]
    ensures GalleryPage(2) == [MockTokens[4]]
  {
  }
}
