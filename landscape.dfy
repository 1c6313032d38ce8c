/**
 * The landscape screen (`LandscapeViewController`): the grid the result
 * buttons are laid out on, chosen by screen width; the placement loop; the
 * page count; and the controller's one-time layout and state dispatch.
 *
 * Every layout quantity in the source is a whole number of points (both
 * paddings come out at 7 and 3), so positions are `int`. The screen width
 * is compared with the source's literals and is kept as `real`.
 */
module Landscape {
  import opened SearchResults
  import SearchService

  /** The grid of one page: its columns and rows, the cell size, the margins. */
  datatype Grid = Grid(
    columnsPerPage: int,
    rowsPerPage: int,
    itemWidth: int,
    itemHeight: int,
    marginX: int,
    marginY: int)

  /** A grid with at least one cell, and margins that are not negative. */
  predicate ValidGrid(g: Grid)
  {
    g.columnsPerPage > 0 && g.rowsPerPage > 0 && g.marginX >= 0 && g.marginY >= 0
  }

  /** The defaults `titleButtons` starts from (the 480-point screen). */
  const DefaultGrid: Grid := Grid(5, 3, 96, 88, 0, 20)

  const ButtonWidth: int := 82
  const ButtonHeight: int := 82

  /** Both paddings are computed from the default cell size, before the width is looked at. */
  const PaddingHorz: int := (DefaultGrid.itemWidth - ButtonWidth) / 2
  const PaddingVert: int := (DefaultGrid.itemHeight - ButtonHeight) / 2

  /** The `switch scrollViewWidth` of `titleButtons`: the defaults, overridden for three widths. */
  function GridFor(width: real): Grid
  {
    if width == 568.0 then DefaultGrid.(columnsPerPage := 6, itemWidth := 94, marginX := 2)
    else if width == 667.0 then DefaultGrid.(columnsPerPage := 7, itemWidth := 95, itemHeight := 98, marginX := 1, marginY := 29)
    else if width == 736.0 then DefaultGrid.(columnsPerPage := 8, rowsPerPage := 4, itemWidth := 92)
    else DefaultGrid
  }

  /** The grid for each screen width, and the paddings, which do not depend on it. */
  lemma GridTable(width: real)
    ensures PaddingHorz == 7 && PaddingVert == 3
    ensures GridFor(width) == (
      if width == 568.0 then Grid(6, 3, 94, 88, 2, 20)
      else if width == 667.0 then Grid(7, 3, 95, 98, 1, 29)
      else if width == 736.0 then Grid(8, 4, 92, 88, 0, 20)
      else Grid(5, 3, 96, 88, 0, 20))
    ensures ValidGrid(GridFor(width))
  {
  }

  /** The horizontal extent of one page: its columns and a margin on each side. */
  function PageWidth(g: Grid): int
  {
    g.columnsPerPage * g.itemWidth + 2 * g.marginX
  }

  /** On each of the four screen widths the source knows, one page of the grid is exactly one screen wide. */
  lemma PageWidthIsScreenWidth(width: int)
    requires width == 480 || width == 568 || width == 667 || width == 736
    ensures PageWidth(GridFor(width as real)) == width
  {
  }

  // ---------------------------------------------------------------------
  // Button placement

  datatype Frame = Frame(x: int, y: int, width: int, height: int)

  /**
   * Where button `k` goes, in closed form: buttons fill a column top to
   * bottom, columns fill a page left to right, and each page adds twice the
   * horizontal margin.
   */
  function FrameAt(g: Grid, k: nat): Frame
    requires ValidGrid(g)
  {
    var column := k / g.rowsPerPage;
    var row := k % g.rowsPerPage;
    var page := column / g.columnsPerPage;
    Frame(
      g.marginX + column * g.itemWidth + page * 2 * g.marginX + PaddingHorz,
      g.marginY + row * g.itemHeight + PaddingVert,
      ButtonWidth,
      ButtonHeight)
  }

  /** The frames of the first `n` buttons. */
  function Layout(g: Grid, n: nat): (frames: seq<Frame>)
    requires ValidGrid(g)
    ensures |frames| == n
    ensures forall k :: 0 <= k < n ==> frames[k] == FrameAt(g, k)
  {
    seq(n, k requires 0 <= k < n => FrameAt(g, k))
  }

  /** Quotient and remainder are the unique pair that rebuilds `n`. */
  lemma DivModUnique(n: int, d: int, q: int, r: int)
    requires d > 0 && 0 <= r < d && n == q * d + r
    ensures n / d == q && n % d == r
  {
    var q', r' := n / d, n % d;
    assert (q - q') * d == r' - r;
    MulBound(q - q', d);
  }

  /** A nonzero multiple of `d` is at least `d` away from zero. */
  lemma MulBound(e: int, d: int)
    requires d > 0
    ensures e >= 1 ==> e * d >= d
    ensures e <= -1 ==> e * d <= -d
  {
  }

  /**
   * The placement loop of `titleButtons`: `row` counts down a column, and
   * on reaching `rowsPerPage` goes back to 0 while `x` moves one cell right
   * and `column` advances; when `column` reaches `columnsPerPage` it goes
   * back to 0 and `x` moves a further two margins. Button `k` gets exactly
   * the frame `FrameAt(g, k)`.
   */
  method PlaceButtons(g: Grid, count: nat) returns (frames: seq<Frame>)
    requires ValidGrid(g)
    ensures frames == Layout(g, count)
  {
    var row := 0;
    var column := 0;
    var x := g.marginX;
    ghost var columnsSoFar := 0;
    ghost var page := 0;
    frames := [];
    for i := 0 to count
      invariant 0 <= row < g.rowsPerPage && 0 <= column < g.columnsPerPage
      invariant page >= 0 && columnsSoFar == page * g.columnsPerPage + column
      invariant i == columnsSoFar * g.rowsPerPage + row
      invariant x == g.marginX + columnsSoFar * g.itemWidth + page * 2 * g.marginX
      invariant |frames| == i
      invariant forall k :: 0 <= k < i ==> frames[k] == FrameAt(g, k)
    {
      DivModUnique(i, g.rowsPerPage, columnsSoFar, row);
      DivModUnique(columnsSoFar, g.columnsPerPage, page, column);
      frames := frames + [Frame(x + PaddingHorz, g.marginY + row * g.itemHeight + PaddingVert, ButtonWidth, ButtonHeight)];
      row := row + 1;
      if row == g.rowsPerPage {
        row := 0;
        x := x + g.itemWidth;
        column := column + 1;
        columnsSoFar := columnsSoFar + 1;
        if column == g.columnsPerPage {
          column := 0;
          x := x + g.marginX * 2;
          page := page + 1;
        }
      }
    }
  }

  /**
   * On the four known screens every button lies inside the screen-wide
   * page it belongs to, and inside its own cell vertically.
   */
  lemma ButtonWithinItsPage(width: int, k: nat)
    requires width == 480 || width == 568 || width == 667 || width == 736
    ensures
      var g := GridFor(width as real);
      var page := (k / g.rowsPerPage) / g.columnsPerPage;
      var row := k % g.rowsPerPage;
      var f := FrameAt(g, k);
      && page * width <= f.x && f.x + f.width <= (page + 1) * width
      && g.marginY + row * g.itemHeight <= f.y && f.y + f.height <= g.marginY + (row + 1) * g.itemHeight
  {
  }

  // ---------------------------------------------------------------------
  // Page count

  /** Swift's `/` on `Int`: the quotient truncated toward zero. */
  function TruncDiv(a: int, b: int): int
    requires b > 0
  {
    if a >= 0 then a / b else -((-a) / b)
  }

  /** `1 + (searchResults.count - 1) / buttonsPerPage`. */
  function NumPages(count: nat, buttonsPerPage: int): int
    requires buttonsPerPage > 0
  {
    1 + TruncDiv(count - 1, buttonsPerPage)
  }

  /**
   * The page count is the number of pages needed to hold `count` buttons,
   * the ceiling of `count / buttonsPerPage`. With no results the truncating
   * division still gives one page, except for a one-button page, where it
   * gives none (the grids of `GridFor` hold at least 15 buttons).
   */
  lemma NumPagesIsCeiling(count: nat, buttonsPerPage: int)
    requires buttonsPerPage > 0
    ensures count == 0 && buttonsPerPage > 1 ==> NumPages(count, buttonsPerPage) == 1
    ensures count == 0 && buttonsPerPage == 1 ==> NumPages(count, buttonsPerPage) == 0
    ensures count >= 1 ==>
      && NumPages(count, buttonsPerPage) == (count + buttonsPerPage - 1) / buttonsPerPage
      && (NumPages(count, buttonsPerPage) - 1) * buttonsPerPage < count <= NumPages(count, buttonsPerPage) * buttonsPerPage
  {
    var b := buttonsPerPage;
    if count == 0 && b > 1 {
      DivModUnique(1, b, 0, 1);
    } else if count >= 1 {
      var q, r := (count - 1) / b, (count - 1) % b;
      assert count - 1 == q * b + r;
      DivModUnique(count + b - 1, b, q + 1, r);
    }
  }

  /** Every placed button lies on one of the pages the scroll view is sized for. */
  lemma ButtonsFitPages(g: Grid, count: nat, k: nat)
    requires ValidGrid(g) && k < count
    ensures (k / g.rowsPerPage) / g.columnsPerPage < NumPages(count, g.columnsPerPage * g.rowsPerPage)
  {
    var R, C := g.rowsPerPage, g.columnsPerPage;
    var b := C * R;
    var columns := k / R;
    var page := columns / C;
    var column := columns % C;
    var row := k % R;
    assert columns == page * C + column;
    assert k == columns * R + row;
    assert k == page * b + (column * R + row) by {
      assert columns * R == page * (C * R) + column * R;
    }
    assert column * R + row < b by {
      MulBound(C - column, R);
    }
    DivModUnique(k, b, page, column * R + row);
    var q := (count - 1) / b;
    assert count - 1 == q * b + (count - 1) % b;
    assert page * b <= count - 1;
    MulBound(page - q, b);
  }

  /**
   * On the four known screens every button lies inside the scroll view's
   * content, which `titleButtons` makes as wide as the page count times the
   * screen width.
   */
  lemma ButtonsWithinContent(width: int, count: nat, k: nat)
    requires width == 480 || width == 568 || width == 667 || width == 736
    requires k < count
    ensures
      var g := GridFor(width as real);
      var f := FrameAt(g, k);
      0 <= f.x && f.x + f.width <= NumPages(count, g.columnsPerPage * g.rowsPerPage) * width
  {
    var g := GridFor(width as real);
    GridTable(width as real);
    var page := (k / g.rowsPerPage) / g.columnsPerPage;
    var n := NumPages(count, g.columnsPerPage * g.rowsPerPage);
    ButtonWithinItsPage(width, k);
    ButtonsFitPages(g, count, k);
    MulBound(n - (page + 1), width);
    assert n * width == (page + 1) * width + (n - (page + 1)) * width;
  }

  // ---------------------------------------------------------------------
  // The controller

  /**
   * The landscape screen's state: whether the one-time layout is still to
   * come, the buttons added to the scroll view (their frames, in the order
   * added), the page control's dots and current page, the scroll view's
   * content width, and how many spinners and "Nothing Found" labels are on
   * screen.
   */
  class LandscapeViewController {
    var firstTime: bool
    var buttons: seq<Frame>
    var numberOfPages: int
    var currentPage: int
    var contentWidth: real
    var spinners: nat
    var nothingFoundLabels: nat

    /** A loaded controller: nothing laid out yet and a page control with no dots. */
    constructor ()
      ensures firstTime && buttons == [] && numberOfPages == 0 && currentPage == 0
      ensures contentWidth == 0.0 && spinners == 0 && nothingFoundLabels == 0
    {
      firstTime := true;
      buttons := [];
      numberOfPages := 0;
      currentPage := 0;
      contentWidth := 0.0;
      spinners := 0;
      nothingFoundLabels := 0;
    }

    /**
     * `titleButtons`: one button per result on the grid for this width,
     * added after any already there; the scroll view is made as wide as
     * the pages needed, and the page control shows that many dots and the
     * first page.
     */
    method TitleButtons(results: seq<SearchResult>, width: real)
      modifies this`buttons, this`numberOfPages, this`currentPage, this`contentWidth
      ensures var g := GridFor(width);
        && buttons == old(buttons) + Layout(g, |results|)
        && numberOfPages == NumPages(|results|, g.columnsPerPage * g.rowsPerPage)
        && currentPage == 0
        && contentWidth == numberOfPages as real * width
    {
      var columnsPerPage, rowsPerPage := 5, 3;
      var itemWidth, itemHeight := 96, 88;
      var marginX, marginY := 0, 20;
      if width == 568.0 {
        columnsPerPage, itemWidth, marginX := 6, 94, 2;
      } else if width == 667.0 {
        columnsPerPage, itemWidth, itemHeight, marginX, marginY := 7, 95, 98, 1, 29;
      } else if width == 736.0 {
        columnsPerPage, rowsPerPage, itemWidth := 8, 4, 92;
      }
      var g := Grid(columnsPerPage, rowsPerPage, itemWidth, itemHeight, marginX, marginY);
      assert g == GridFor(width);
      var placed := PlaceButtons(g, |results|);
      buttons := buttons + placed;
      var buttonsPerPage := columnsPerPage * rowsPerPage;
      var numPages := 1 + TruncDiv(|results| - 1, buttonsPerPage);
      contentWidth := numPages as real * width;
      numberOfPages := numPages;
      currentPage := 0;
    }

    /** `showSpinner`: one more spinner on screen. */
    method ShowSpinner()
      modifies this`spinners
      ensures spinners == old(spinners) + 1
    {
      spinners := spinners + 1;
    }

    /** `hideSpinner`: removes the spinner the tag lookup finds, if there is one. */
    method HideSpinner()
      modifies this`spinners
      ensures spinners == if old(spinners) > 0 then old(spinners) - 1 else 0
    {
      if spinners > 0 {
        spinners := spinners - 1;
      }
    }

    /** `showNothingFoundLabel`: one more label on screen. */
    method ShowNothingFoundLabel()
      modifies this`nothingFoundLabels
      ensures nothingFoundLabels == old(nothingFoundLabels) + 1
    {
      nothingFoundLabels := nothingFoundLabels + 1;
    }

    /**
     * `viewWillLayoutSubviews`: only the first pass looks at the search
     * state — a spinner while loading, the label when nothing was found,
     * the buttons for results — and every later pass leaves the screen as
     * it is.
     */
    method ViewWillLayoutSubviews(state: SearchService.State, width: real)
      modifies this
      ensures !firstTime
      ensures !old(firstTime) ==> unchanged(this)
      ensures old(firstTime) ==> match state
        case NotSearchYet =>
          && buttons == old(buttons) && spinners == old(spinners)
          && nothingFoundLabels == old(nothingFoundLabels)
          && numberOfPages == old(numberOfPages) && currentPage == old(currentPage)
          && contentWidth == old(contentWidth)
        case Loading =>
          && buttons == old(buttons) && spinners == old(spinners) + 1
          && nothingFoundLabels == old(nothingFoundLabels)
          && numberOfPages == old(numberOfPages) && currentPage == old(currentPage)
          && contentWidth == old(contentWidth)
        case NoResults =>
          && buttons == old(buttons) && spinners == old(spinners)
          && nothingFoundLabels == old(nothingFoundLabels) + 1
          && numberOfPages == old(numberOfPages) && currentPage == old(currentPage)
          && contentWidth == old(contentWidth)
        case Results(list) =>
          var g := GridFor(width);
          && buttons == old(buttons) + Layout(g, |list|)
          && spinners == old(spinners) && nothingFoundLabels == old(nothingFoundLabels)
          && numberOfPages == NumPages(|list|, g.columnsPerPage * g.rowsPerPage)
          && currentPage == 0 && contentWidth == numberOfPages as real * width
    {
      if firstTime {
        firstTime := false;
        match state
        case NotSearchYet =>
        case Loading => ShowSpinner();
        case NoResults => ShowNothingFoundLabel();
        case Results(list) => TitleButtons(list, width);
      }
    }

    /**
     * `searchResultsReceived`: the spinner goes; then nothing more while
     * no search has finished, the label when nothing was found, the buttons
     * for results. `firstTime` is not consulted.
     */
    method SearchResultsReceived(state: SearchService.State, width: real)
      modifies this`buttons, this`numberOfPages, this`currentPage, this`contentWidth,
        this`spinners, this`nothingFoundLabels
      ensures spinners == if old(spinners) > 0 then old(spinners) - 1 else 0
      ensures match state
        case NotSearchYet | Loading =>
          && buttons == old(buttons) && nothingFoundLabels == old(nothingFoundLabels)
          && numberOfPages == old(numberOfPages) && currentPage == old(currentPage)
          && contentWidth == old(contentWidth)
        case NoResults =>
          && buttons == old(buttons) && nothingFoundLabels == old(nothingFoundLabels) + 1
          && numberOfPages == old(numberOfPages) && currentPage == old(currentPage)
          && contentWidth == old(contentWidth)
        case Results(list) =>
          var g := GridFor(width);
          && buttons == old(buttons) + Layout(g, |list|)
          && nothingFoundLabels == old(nothingFoundLabels)
          && numberOfPages == NumPages(|list|, g.columnsPerPage * g.rowsPerPage)
          && currentPage == 0 && contentWidth == numberOfPages as real * width
    {
      HideSpinner();
      match state
      case NotSearchYet =>
      case Loading =>
      case NoResults => ShowNothingFoundLabel();
      case Results(list) => TitleButtons(list, width);
    }
  }

  /**
   * Rotating to landscape with results on screen, then laying out again:
   * the second pass adds nothing, so the scroll view holds exactly one
   * button per result, on as many pages as the grid needs.
   */
  method LayoutTwice(list: seq<SearchResult>, width: real) returns (c: LandscapeViewController)
    ensures var g := GridFor(width);
      && c.buttons == Layout(g, |list|)
      && c.numberOfPages == NumPages(|list|, g.columnsPerPage * g.rowsPerPage)
      && !c.firstTime
  {
    c := new LandscapeViewController();
    c.ViewWillLayoutSubviews(SearchService.Results(list), width);
    c.ViewWillLayoutSubviews(SearchService.Results(list), width);
  }
}
