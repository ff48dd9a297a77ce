/**
 * The identifiers the builder and the validator take from their constants
 * file. That file is not part of this model, so their values are left
 * unspecified: every property below holds whatever they are, and none relies
 * on two of them being different.
 */
module Constants {
  /** The CustomizationID of a standard PEPPOL document. */
  const CUSTOMIZATION_ID: string
  /** The CustomizationID of a UBL.BE (Belgian) document. */
  const CUSTOMIZATION_UBL_BE: string
  /** The ProfileID of every document. */
  const PROFILE_ID: string
  /** The extension argument that selects Belgian mode. */
  const UBL_BE: string
}
