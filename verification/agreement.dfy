/**
 * The upload form repeats the limits of the validators (ten images, 200 characters) instead of
 * calling them. This module states how far the form's submit guard and the validators agree.
 */
module LimitsAgreement {
  import opened Wrappers
  import opened JsText
  import Validation
  import opened Upload

  /**
   * With at most ten images, the submit guard reports a title problem exactly when the title
   * validator does, reports the missing images exactly when the title is valid and the count
   * validator rejects, and gets past both exactly when both validators accept.
   */
  lemma SubmitGuardAgreesWithValidators(title: string, images: seq<string>, txSignature: string)
    requires |images| <= Validation.MAX_IMAGES_PER_TASK
    ensures var g := SubmitGuard(title, images, txSignature);
            var t := Validation.ValidateTaskTitle(title);
            var c := Validation.ValidateImageCount(|images|);
            && (g == Some(TitleRequired) <==> t.error == Some(Validation.TITLE_REQUIRED))
            && (g == Some(TitleTooLong) <==> t.error == Some(Validation.TITLE_TOO_LONG))
            && (g == Some(NoImages) <==> t.valid && !c.valid)
            && (g.None? || g == Some(PaymentMissing) <==> t.valid && c.valid)
  {
  }

  /**
   * Above ten images they part: a well-formed paid draft with eleven images passes the submit
   * guard although the count validator rejects it.
   */
  lemma SubmitGuardAdmitsTooManyImages(title: string, images: seq<string>, txSignature: string)
    requires !IsBlank(title) && |title| <= MAX_TITLE_LENGTH && txSignature != ""
    requires |images| == Validation.MAX_IMAGES_PER_TASK + 1
    ensures SubmitGuard(title, images, txSignature).None?
    ensures Validation.ValidateImageCount(|images|).error == Some(Validation.TOO_MANY_IMAGES)
  {
  }

  /**
   * The form's own messages: its length message is word for word the title validator's, while its
   * blank-title message differs from the validator's.
   */
  lemma SubmitMessagesVersusValidator()
    ensures TitleTooLong.Message() == Validation.TITLE_TOO_LONG
    ensures TitleRequired.Message() != Validation.TITLE_REQUIRED
  {
  }
}
