// The document attributes that several components look at (app/documents/models.py).

module Documents {
  datatype Status = Pending | Processing | Ready | Failed

  datatype DocumentType = Policy | Contract | Regulation | Report | Other
}
