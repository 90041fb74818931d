/**
 * The export transform: answers keyed by voice field id become PDF form
 * values keyed by PDF field id; choice answers that read as whole numbers
 * become integers, everything else is copied as text, and answers under ids
 * the catalogue does not know are dropped.
 */
module PdfExport {
  import opened Wrappers
  import opened PyText
  import opened Fields
  import AnmeldungFields

  /** A value handed to the PDF form filler: an integer or a string. */
  datatype PdfValue = PdfInt(i: int) | PdfText(s: string)

  /** How one answer is exported for its field. */
  function ExportValue(field: AnmeldungField, value: string): (r: PdfValue)
    ensures r.PdfText? ==> r.s == value
    ensures r.PdfInt? ==> field.validator.validatorType == "integer_choice" && ParseInt(value) == Some(r.i)
    ensures field.validator.validatorType == "integer_choice" && ParseInt(value).Some? ==> r.PdfInt?
  {
    if field.validator.validatorType == "integer_choice" then
      match ParseInt(value)
      case Some(n) => PdfInt(n)
      case None => PdfText(value)
    else PdfText(value)
  }

  /** A choice answered with `str(n)` is exported as the integer `n`. */
  lemma ExportChoiceIndex(field: AnmeldungField, n: int)
    requires field.validator.validatorType == "integer_choice"
    ensures ExportValue(field, IntToString(n)) == PdfInt(n)
  {
    ParseIntToString(n);
  }

  /**
   * The export of the answers whose ids lie in `ids`, described by PDF id:
   * a PDF field is filled when its catalogue field was answered.
   */
  function PdfFormatOf(byPdfId: map<string, AnmeldungField>, answers: map<string, string>, ids: set<string>): map<string, PdfValue> {
    map pdf | pdf in byPdfId && byPdfId[pdf].fieldId in ids && byPdfId[pdf].fieldId in answers
      :: ExportValue(byPdfId[pdf], answers[byPdfId[pdf].fieldId])
  }

  /**
   * `transform_answers_to_pdf_format(answers)`, described field by field:
   * every answered catalogue field is filled under its PDF id with its
   * exported value, nothing else is filled, and unknown ids are dropped.
   */
  function PdfFormat(answers: map<string, string>): (r: map<string, PdfValue>)
    ensures forall pdf :: pdf in r ==>
      pdf in AnmeldungFields.FIELD_BY_PDF_ID && AnmeldungFields.FIELD_BY_PDF_ID[pdf].fieldId in answers
    ensures forall id :: id in answers && id in AnmeldungFields.FIELD_BY_ID ==>
      var f := AnmeldungFields.FIELD_BY_ID[id];
      f.pdfFieldId in r && r[f.pdfFieldId] == ExportValue(f, answers[id])
    ensures |r| == |answers.Keys * AnmeldungFields.FIELD_BY_ID.Keys|
  {
    var byId, byPdf := AnmeldungFields.FIELD_BY_ID, AnmeldungFields.FIELD_BY_PDF_ID;
    AnmeldungFields.LookupsCrossConsistent();
    ExportSize(byId, byPdf, answers, answers.Keys);
    assert forall id :: id in answers && id in byId ==>
      var f := byId[id];
      f.pdfFieldId in PdfFormatOf(byPdf, answers, answers.Keys) &&
      PdfFormatOf(byPdf, answers, answers.Keys)[f.pdfFieldId] == ExportValue(f, answers[id])
    by {
      forall id | id in answers && id in byId
        ensures var f := byId[id];
          f.pdfFieldId in PdfFormatOf(byPdf, answers, answers.Keys) &&
          PdfFormatOf(byPdf, answers, answers.Keys)[f.pdfFieldId] == ExportValue(f, answers[id])
      {
        ExportedUnder(byId, byPdf, answers, id);
      }
    }
    PdfFormatOf(byPdf, answers, answers.Keys)
  }

  /**
   * `transform_answers_to_pdf_format`: a loop over the answers that looks
   * each id up by voice id and stores its export under the PDF id.  The
   * result holds one entry per answered catalogue field.
   */
  method TransformAnswersToPdfFormat(answers: map<string, string>) returns (pdfData: map<string, PdfValue>)
    ensures pdfData == PdfFormat(answers)
    ensures |pdfData| == |answers.Keys * AnmeldungFields.FIELD_BY_ID.Keys|
  {
    AnmeldungFields.LookupsCrossConsistent();
    pdfData := Transform(AnmeldungFields.FIELD_BY_ID, AnmeldungFields.FIELD_BY_PDF_ID, answers);
  }

  /** The loop, over any pair of cross-consistent lookup maps. */
  method Transform(byId: map<string, AnmeldungField>, byPdf: map<string, AnmeldungField>, answers: map<string, string>)
    returns (pdfData: map<string, PdfValue>)
    requires CrossConsistent(byId, byPdf)
    ensures pdfData == PdfFormatOf(byPdf, answers, answers.Keys)
    ensures |pdfData| == |answers.Keys * byId.Keys|
  {
    pdfData := map[];
    ghost var done: set<string> := {};
    var todo := answers.Keys;
    while todo != {}
      invariant todo <= answers.Keys && done == answers.Keys - todo
      invariant pdfData == PdfFormatOf(byPdf, answers, done)
      decreases todo
    {
      var fieldId :| fieldId in todo;
      ExportStep(byId, byPdf, answers, done, fieldId);
      if fieldId in byId {
        var fieldDef := byId[fieldId];
        pdfData := pdfData[fieldDef.pdfFieldId := ExportValue(fieldDef, answers[fieldId])];
      }
      done := done + {fieldId};
      todo := todo - {fieldId};
    }
    ExportSize(byId, byPdf, answers, answers.Keys);
  }

  /** One entry per answered catalogue field: PDF ids are never shared. */
  lemma {:induction false} ExportSize(byId: map<string, AnmeldungField>, byPdf: map<string, AnmeldungField>,
                                      answers: map<string, string>, ids: set<string>)
    requires CrossConsistent(byId, byPdf) && ids <= answers.Keys
    ensures |PdfFormatOf(byPdf, answers, ids)| == |ids * byId.Keys|
    decreases ids
  {
    if ids != {} {
      var id :| id in ids;
      ExportSize(byId, byPdf, answers, ids - {id});
      ExportStep(byId, byPdf, answers, ids - {id}, id);
      assert ids - {id} + {id} == ids;
    }
  }

  /** One more answer either adds its fresh PDF entry or, for an unknown id, nothing. */
  lemma ExportStep(byId: map<string, AnmeldungField>, byPdf: map<string, AnmeldungField>,
                   answers: map<string, string>, done: set<string>, id: string)
    requires CrossConsistent(byId, byPdf) && id in answers && id !in done
    ensures id in byId ==> byId[id].pdfFieldId !in PdfFormatOf(byPdf, answers, done)
    ensures id in byId ==>
      PdfFormatOf(byPdf, answers, done + {id}) ==
      PdfFormatOf(byPdf, answers, done)[byId[id].pdfFieldId := ExportValue(byId[id], answers[id])]
    ensures id !in byId ==> PdfFormatOf(byPdf, answers, done + {id}) == PdfFormatOf(byPdf, answers, done)
    ensures (done + {id}) * byId.Keys == if id in byId then done * byId.Keys + {id} else done * byId.Keys
    ensures id in byId ==> id !in done * byId.Keys
  {
    if id in byId {
      ExportKnown(byId, byPdf, answers, done, id);
    } else {
      ExportUnknown(byId, byPdf, answers, done, id);
    }
  }

  lemma ExportKnown(byId: map<string, AnmeldungField>, byPdf: map<string, AnmeldungField>,
                    answers: map<string, string>, done: set<string>, id: string)
    requires CrossConsistent(byId, byPdf) && id in answers && id !in done && id in byId
    ensures byId[id].pdfFieldId !in PdfFormatOf(byPdf, answers, done)
    ensures PdfFormatOf(byPdf, answers, done + {id}) ==
      PdfFormatOf(byPdf, answers, done)[byId[id].pdfFieldId := ExportValue(byId[id], answers[id])]
  {
    var pdf := byId[id].pdfFieldId;
    assert byPdf[pdf].fieldId == id;
  }

  lemma ExportUnknown(byId: map<string, AnmeldungField>, byPdf: map<string, AnmeldungField>,
                      answers: map<string, string>, done: set<string>, id: string)
    requires CrossConsistent(byId, byPdf) && id !in byId
    ensures PdfFormatOf(byPdf, answers, done + {id}) == PdfFormatOf(byPdf, answers, done)
  {
  }

  /** Unknown answers change nothing: only the catalogue's ids matter. */
  lemma UnknownAnswersDropped(answers: map<string, string>, id: string, value: string)
    requires id !in AnmeldungFields.FIELD_BY_ID
    ensures PdfFormat(answers[id := value]) == PdfFormat(answers - {id})
  {
    AnmeldungFields.LookupsCrossConsistent();
    UnknownDropped(AnmeldungFields.FIELD_BY_ID, AnmeldungFields.FIELD_BY_PDF_ID, answers, id, value);
  }

  lemma UnknownDropped(byId: map<string, AnmeldungField>, byPdf: map<string, AnmeldungField>,
                       answers: map<string, string>, id: string, value: string)
    requires CrossConsistent(byId, byPdf) && id !in byId
    ensures PdfFormatOf(byPdf, answers[id := value], answers[id := value].Keys) ==
            PdfFormatOf(byPdf, answers - {id}, (answers - {id}).Keys)
  {
  }

  lemma ExportedUnder(byId: map<string, AnmeldungField>, byPdf: map<string, AnmeldungField>,
                      answers: map<string, string>, id: string)
    requires CrossConsistent(byId, byPdf) && id in answers && id in byId
    ensures var f := byId[id];
      var out := PdfFormatOf(byPdf, answers, answers.Keys);
      f.pdfFieldId in out && out[f.pdfFieldId] == ExportValue(f, answers[id])
  {
  }

  /** No answers, nothing to fill. */
  lemma EmptyAnswers()
    ensures PdfFormat(map[]) == map[]
  {
  }

  /**
   * Exporting through the core catalogue instead of this copy gives the same
   * result: both agree on PDF ids, voice ids and validator tags.
   */
  lemma CoreCatalogueSameExport(answers: map<string, string>)
    ensures PdfFormatOf(Fields.FIELD_BY_PDF_ID, answers, answers.Keys) == PdfFormat(answers)
  {
    AnmeldungFields.PdfLookupMatchesCore();
    SameTagsSameExport(Fields.FIELD_BY_PDF_ID, AnmeldungFields.FIELD_BY_PDF_ID, answers, answers.Keys);
  }

  /** Two lookups that agree on PDF ids, voice ids and validator tags export alike. */
  lemma SameTagsSameExport(p: map<string, AnmeldungField>, q: map<string, AnmeldungField>,
                           answers: map<string, string>, ids: set<string>)
    requires p.Keys == q.Keys
    requires forall pdf :: pdf in q ==>
      && q[pdf].fieldId == p[pdf].fieldId
      && q[pdf].validator.validatorType == p[pdf].validator.validatorType
    ensures PdfFormatOf(p, answers, ids) == PdfFormatOf(q, answers, ids)
  {
    forall pdf | pdf in PdfFormatOf(p, answers, ids)
      ensures ExportValue(p[pdf], answers[p[pdf].fieldId]) == ExportValue(q[pdf], answers[q[pdf].fieldId])
    {
    }
  }
}
