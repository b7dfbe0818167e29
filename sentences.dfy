/**
 * The fixed English text of the narrator's sentences, character for character
 * as `transform` (transformer.ts) pushes it. Long texts are assembled from
 * pieces of at most thirty characters, so that each piece can be checked for
 * newlines on its own.
 */
module Sentences {

  // The seven mouse-interaction sentences (transformer.ts:15-27).

  const MouseUpLine := "User released the mouse button."
  const MouseDownLine := "User pressed the mouse button."
  const ClickLine := "User clicked the mouse button."
  const ContextMenuLine := "User right-clicked the mouse button."
  const DblClickLine := "User double-clicked the mouse button."
  const TouchStartLine := "User touched the screen."
  const TouchEndLine := "User lifted their finger from the screen."

  // The four custom sentences with no embedded value (transformer.ts:33-43).

  const ClickedNodeNotFoundLine1 := "User clicked on a node that "
  const ClickedNodeNotFoundLine2 := "does not exist."
  const ClickedNodeNotFoundLine :=
    ClickedNodeNotFoundLine1 + ClickedNodeNotFoundLine2

  const ClickedWithoutComponentLine1 := "User clicked on a dom node "
  const ClickedWithoutComponentLine2 := "with no corresponding React "
  const ClickedWithoutComponentLine3 := "component."
  const ClickedWithoutComponentLine :=
    ClickedWithoutComponentLine1 + ClickedWithoutComponentLine2 + ClickedWithoutComponentLine3

  const RageClickWithoutFiberLine1 := "User clicked repeatedly in a "
  const RageClickWithoutFiberLine2 := "short period of time, on a "
  const RageClickWithoutFiberLine3 := "node with no corresponding "
  const RageClickWithoutFiberLine4 := "React fiber."
  const RageClickWithoutFiberLine :=
    RageClickWithoutFiberLine1 + RageClickWithoutFiberLine2 + RageClickWithoutFiberLine3 + RageClickWithoutFiberLine4

  const DomMutationLine := "Dom mutation performed."

  // The fixed text around the values that the other three custom sentences embed (transformer.ts:37-45).

  const NoViewChangeOpen1 := "No view change after click on "
  const NoViewChangeOpen2 := "the component ("
  const NoViewChangeOpen :=
    NoViewChangeOpen1 + NoViewChangeOpen2

  const NoViewChangeClose := ")."

  const RageClickOpen1 := "User clicked repeatedly in a "
  const RageClickOpen2 := "short period of time, and "
  const RageClickOpen3 := "their last click was on the "
  const RageClickOpen4 := "react component ("
  const RageClickOpen :=
    RageClickOpen1 + RageClickOpen2 + RageClickOpen3 + RageClickOpen4

  const RageClickClose1 := "). First, decide if this was "
  const RageClickClose2 := "a bug. If not, think of ways "
  const RageClickClose3 := "to make it so they don't have "
  const RageClickClose4 := "to click this much and offer "
  const RageClickClose5 := "them to the user in the form "
  const RageClickClose6 := "of three options labeled a, "
  const RageClickClose7 := "b, and c. Then ask the user "
  const RageClickClose8 := "which task to continue "
  const RageClickClose9 := "forward with."
  const RageClickClose :=
    RageClickClose1 + RageClickClose2 + RageClickClose3 + RageClickClose4 + RageClickClose5 + RageClickClose6 + RageClickClose7 + RageClickClose8 + RageClickClose9

  const MediaLoadErrorOpen := "Media load error on url: "
  const MediaLoadErrorMiddle := ". (In component: "
  const MediaLoadErrorClose := ")."

  // ---------------------------------------------------------------------------
  // No fixed text contains a newline
  // ---------------------------------------------------------------------------

  /** Every fixed text of the narrator is free of newlines. */
  lemma FixedTextsNewlineFree()
    ensures '\n' !in MouseUpLine
      && '\n' !in MouseDownLine
      && '\n' !in ClickLine
      && '\n' !in ContextMenuLine
      && '\n' !in DblClickLine
      && '\n' !in TouchStartLine
      && '\n' !in TouchEndLine
      && '\n' !in ClickedNodeNotFoundLine
      && '\n' !in ClickedWithoutComponentLine
      && '\n' !in RageClickWithoutFiberLine
      && '\n' !in DomMutationLine
      && '\n' !in NoViewChangeOpen
      && '\n' !in NoViewChangeClose
      && '\n' !in RageClickOpen
      && '\n' !in RageClickClose
      && '\n' !in MediaLoadErrorOpen
      && '\n' !in MediaLoadErrorMiddle
      && '\n' !in MediaLoadErrorClose
  {
    NoNewlineInMouseUpLine();
    NoNewlineInMouseDownLine();
    NoNewlineInClickLine();
    NoNewlineInContextMenuLine();
    NoNewlineInDblClickLine();
    NoNewlineInTouchStartLine();
    NoNewlineInTouchEndLine();
    NoNewlineInClickedNodeNotFoundLine();
    NoNewlineInClickedWithoutComponentLine();
    NoNewlineInRageClickWithoutFiberLine();
    NoNewlineInDomMutationLine();
    NoNewlineInNoViewChangeOpen();
    NoNewlineInNoViewChangeClose();
    NoNewlineInRageClickOpen();
    NoNewlineInRageClickClose();
    NoNewlineInMediaLoadErrorOpen();
    NoNewlineInMediaLoadErrorMiddle();
    NoNewlineInMediaLoadErrorClose();
  }

  lemma NoNewlineInClickedNodeNotFoundLine()
    ensures '\n' !in ClickedNodeNotFoundLine
  {
    NoNewlineInClickedNodeNotFoundLine1();
    NoNewlineInClickedNodeNotFoundLine2();
  }

  lemma NoNewlineInClickedWithoutComponentLine()
    ensures '\n' !in ClickedWithoutComponentLine
  {
    NoNewlineInClickedWithoutComponentLine1();
    NoNewlineInClickedWithoutComponentLine2();
    NoNewlineInClickedWithoutComponentLine3();
  }

  lemma NoNewlineInRageClickWithoutFiberLine()
    ensures '\n' !in RageClickWithoutFiberLine
  {
    NoNewlineInRageClickWithoutFiberLine1();
    NoNewlineInRageClickWithoutFiberLine2();
    NoNewlineInRageClickWithoutFiberLine3();
    NoNewlineInRageClickWithoutFiberLine4();
  }

  lemma NoNewlineInNoViewChangeOpen()
    ensures '\n' !in NoViewChangeOpen
  {
    NoNewlineInNoViewChangeOpen1();
    NoNewlineInNoViewChangeOpen2();
  }

  lemma NoNewlineInRageClickOpen()
    ensures '\n' !in RageClickOpen
  {
    NoNewlineInRageClickOpen1();
    NoNewlineInRageClickOpen2();
    NoNewlineInRageClickOpen3();
    NoNewlineInRageClickOpen4();
  }

  lemma NoNewlineInRageClickClose()
    ensures '\n' !in RageClickClose
  {
    NoNewlineInRageClickClose1();
    NoNewlineInRageClickClose2();
    NoNewlineInRageClickClose3();
    NoNewlineInRageClickClose4();
    NoNewlineInRageClickClose5();
    NoNewlineInRageClickClose6();
    NoNewlineInRageClickClose7();
    NoNewlineInRageClickClose8();
    NoNewlineInRageClickClose9();
  }

  lemma NoNewlineInMouseUpLine() ensures '\n' !in MouseUpLine {}

  lemma NoNewlineInMouseDownLine() ensures '\n' !in MouseDownLine {}

  lemma NoNewlineInClickLine() ensures '\n' !in ClickLine {}

  lemma NoNewlineInContextMenuLine() ensures '\n' !in ContextMenuLine {}

  lemma NoNewlineInDblClickLine() ensures '\n' !in DblClickLine {}

  lemma NoNewlineInTouchStartLine() ensures '\n' !in TouchStartLine {}

  lemma NoNewlineInTouchEndLine() ensures '\n' !in TouchEndLine {}

  lemma NoNewlineInClickedNodeNotFoundLine1() ensures '\n' !in ClickedNodeNotFoundLine1 {}

  lemma NoNewlineInClickedNodeNotFoundLine2() ensures '\n' !in ClickedNodeNotFoundLine2 {}

  lemma NoNewlineInClickedWithoutComponentLine1() ensures '\n' !in ClickedWithoutComponentLine1 {}

  lemma NoNewlineInClickedWithoutComponentLine2() ensures '\n' !in ClickedWithoutComponentLine2 {}

  lemma NoNewlineInClickedWithoutComponentLine3() ensures '\n' !in ClickedWithoutComponentLine3 {}

  lemma NoNewlineInRageClickWithoutFiberLine1() ensures '\n' !in RageClickWithoutFiberLine1 {}

  lemma NoNewlineInRageClickWithoutFiberLine2() ensures '\n' !in RageClickWithoutFiberLine2 {}

  lemma NoNewlineInRageClickWithoutFiberLine3() ensures '\n' !in RageClickWithoutFiberLine3 {}

  lemma NoNewlineInRageClickWithoutFiberLine4() ensures '\n' !in RageClickWithoutFiberLine4 {}

  lemma NoNewlineInDomMutationLine() ensures '\n' !in DomMutationLine {}

  lemma NoNewlineInNoViewChangeOpen1() ensures '\n' !in NoViewChangeOpen1 {}

  lemma NoNewlineInNoViewChangeOpen2() ensures '\n' !in NoViewChangeOpen2 {}

  lemma NoNewlineInNoViewChangeClose() ensures '\n' !in NoViewChangeClose {}

  lemma NoNewlineInRageClickOpen1() ensures '\n' !in RageClickOpen1 {}

  lemma NoNewlineInRageClickOpen2() ensures '\n' !in RageClickOpen2 {}

  lemma NoNewlineInRageClickOpen3() ensures '\n' !in RageClickOpen3 {}

  lemma NoNewlineInRageClickOpen4() ensures '\n' !in RageClickOpen4 {}

  lemma NoNewlineInRageClickClose1() ensures '\n' !in RageClickClose1 {}

  lemma NoNewlineInRageClickClose2() ensures '\n' !in RageClickClose2 {}

  lemma NoNewlineInRageClickClose3() ensures '\n' !in RageClickClose3 {}

  lemma NoNewlineInRageClickClose4() ensures '\n' !in RageClickClose4 {}

  lemma NoNewlineInRageClickClose5() ensures '\n' !in RageClickClose5 {}

  lemma NoNewlineInRageClickClose6() ensures '\n' !in RageClickClose6 {}

  lemma NoNewlineInRageClickClose7() ensures '\n' !in RageClickClose7 {}

  lemma NoNewlineInRageClickClose8() ensures '\n' !in RageClickClose8 {}

  lemma NoNewlineInRageClickClose9() ensures '\n' !in RageClickClose9 {}

  lemma NoNewlineInMediaLoadErrorOpen() ensures '\n' !in MediaLoadErrorOpen {}

  lemma NoNewlineInMediaLoadErrorMiddle() ensures '\n' !in MediaLoadErrorMiddle {}

  lemma NoNewlineInMediaLoadErrorClose() ensures '\n' !in MediaLoadErrorClose {}
}
