/** Board variants and their capabilities (`src-tauri/src/board.rs`), and the
    selected-variant register of the application state. */
module Board {
  import opened Common

  datatype Capability = GPS | LoRa | Ejection

  datatype BoardVariant = Entangler | Warp | Default

  /** `BoardVariant::get_capabilities`. */
  function Capabilities(variant: BoardVariant): (caps: set<Capability>)
    ensures |caps| == (if variant == Default then 0 else 2)
    ensures variant != Default ==> GPS in caps
  {
    match variant
    case Entangler => {GPS, LoRa}
    case Warp => {GPS, Ejection}
    case Default => {}
  }

  /** No board carries both a radio and a deployment controller, and every
      board except `Default` has a GPS. */
  lemma CapabilitiesExclusive(variant: BoardVariant)
    ensures !(LoRa in Capabilities(variant) && Ejection in Capabilities(variant))
    ensures GPS in Capabilities(variant) <==> variant != Default
    ensures LoRa in Capabilities(variant) <==> variant == Entangler
    ensures Ejection in Capabilities(variant) <==> variant == Warp
  {
  }

  /** `get_board_variants`: the variants in declaration order, none twice. */
  function BoardVariants(): (variants: seq<BoardVariant>)
    ensures forall i, j :: 0 <= i < j < |variants| ==> variants[i] != variants[j]
  {
    [Entangler, Warp, Default]
  }

  /** ... and none left out. */
  lemma BoardVariantsComplete(variant: BoardVariant)
    ensures variant in BoardVariants()
  {
    match variant
    case Entangler => assert BoardVariants()[0] == variant;
    case Warp => assert BoardVariants()[1] == variant;
    case Default => assert BoardVariants()[2] == variant;
  }

  /** The `board_variant` field of the application state. */
  class BoardState {
    var boardVariant: Option<BoardVariant>

    constructor ()
      ensures boardVariant == None
    {
      boardVariant := None;
    }

    /** `set_board_variant`: the register holds the given variant. */
    method SetBoardVariant(variant: BoardVariant)
      modifies this
      ensures boardVariant == Some(variant)
    {
      boardVariant := Some(variant);
    }

    /** `get_board_variant`: the selected variant, or an error when none was
        selected; it changes nothing. */
    method GetBoardVariant() returns (r: Result<BoardVariant, string>)
      ensures boardVariant.Some? ==> r == Ok(boardVariant.value)
      ensures boardVariant.None? ==> r == Err("No selected board")
    {
      if boardVariant.Some? {
        return Ok(boardVariant.value);
      } else {
        return Err("No selected board");
      }
    }

    /** A get after a set returns the variant that was set. */
    method SetThenGetBoardVariant(variant: BoardVariant) returns (r: Result<BoardVariant, string>)
      modifies this
      ensures r == Ok(variant)
    {
      SetBoardVariant(variant);
      r := GetBoardVariant();
    }
  }
}
