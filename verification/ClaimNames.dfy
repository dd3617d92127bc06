/** The member and column names that the claim contract and the claims table mention. Every other
    member name of a JSON object is `Other`. */
module ClaimNames {
  datatype Name =
    | Kind | File | DocumentId | DocumentName | DocumentVersion | IngestedAt | DocumentDate | Page
    | CharStart | CharEnd | Bbox | Sheet | CellRef | NamedRange | Paragraph | TableId
    | TableRow | TableCol | Raw | Normalized | Unit | ScaleMultiplier | ScaleSource | ValueType
    | Id | DealId | SessionId | OrgId | DataSourceId | Entity | Attribute | PeriodYear
    | PeriodKind | Value | Location | Status | VerificationMethod | Section | ChunkId | TableGroupId
    | FragmentOrder | Flags | ClaimKind | AssertionClass
    | Other(text: string)
}
