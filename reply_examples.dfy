/** A plain-text reply run through the normaliser. The reply is a lemma
    parameter equal to `Planter`, so that the proofs go through the general
    two-line lemmas rather than evaluating the scanners on the literal text. */
module ReplyExamples {
  import opened Wrappers
  import opened Json
  import opened FieldExtractor
  import opened ExtractorExamples
  import opened Normalizer

  /** `"Title: Planter\nFunctionality: Holds soil"`, written as its two lines. */
  const Planter: string := "Title" + ": " + "Planter" + "\n" + "Functionality" + ": " + "Holds soil"

  lemma PlanterMissing(reply: string, name: string)
    requires reply == Planter
    requires name != [] && name[0] in "MESAU"
    ensures ExtractField(reply, name) == NoData
  {
    MissingField("Title", "Planter", "Functionality", "Holds soil", name);
  }

  lemma PlanterTitle(reply: string)
    requires reply == Planter
    ensures ExtractField(reply, "Title") == "Planter"
  {
    var a, v, b, w := "Title", "Planter", "Functionality", "Holds soil";
    assert LineValue(v) && LineValue(w) && LineLabel(b);
    FirstLine(a, v, b, w);
  }

  lemma PlanterFunctionality(reply: string)
    requires reply == Planter
    ensures ExtractField(reply, "Functionality") == "Holds soil"
  {
    var a, v, b, w := "Title", "Planter", "Functionality", "Holds soil";
    assert LineValue(v) && LineValue(w) && LineLabel(b);
    SecondLine(a, v, b, w);
  }

  /** Every label other than the first two starts with a letter absent from the reply. */
  lemma PlanterMissingField(reply: string, f: Field)
    requires reply == Planter
    requires f != Title && f != Functionality
    ensures ExtractField(reply, Label(f)) == NoData
  {
    var name := Label(f);
    assert name[0] in "MESAU" by {
      match f
      case Manufacturing => assert name[0] == 'M';
      case Benefits => assert name[0] == 'E';
      case Safety => assert name[0] == 'S';
      case Users => assert name[0] == 'A';
      case Scenarios => assert name[0] == 'U';
    }
    PlanterMissing(reply, name);
  }

  lemma PlanterIdea(reply: string)
    requires reply == Planter
    ensures ExtractIdea(reply)
            == Idea("Planter", "Holds soil", NoData, NoData, NoData, NoData, NoData)
  {
    var idea := ExtractIdea(reply);
    assert idea.title == "Planter" by {
      PlanterTitle(reply);
      ExtractIdeaField(reply, Title);
    }
    assert idea.functionality == "Holds soil" by {
      PlanterFunctionality(reply);
      ExtractIdeaField(reply, Functionality);
    }
    assert idea.manufacturing == NoData by {
      ExtractIdeaField(reply, Manufacturing);
      PlanterMissingField(reply, Manufacturing);
    }
    assert idea.benefits == NoData by {
      ExtractIdeaField(reply, Benefits);
      PlanterMissingField(reply, Benefits);
    }
    assert idea.safety == NoData by {
      ExtractIdeaField(reply, Safety);
      PlanterMissingField(reply, Safety);
    }
    assert idea.users == NoData by {
      ExtractIdeaField(reply, Users);
      PlanterMissingField(reply, Users);
    }
    assert idea.scenarios == NoData by {
      ExtractIdeaField(reply, Scenarios);
      PlanterMissingField(reply, Scenarios);
    }
  }

  /** The reply names two fields on two lines and is not a complete JSON object:
      the title and the functionality are read from their lines, the other
      five fields are the sentinel. */
  lemma PlanterReply(reply: string, parsed: Option<Value>)
    requires reply == Planter
    requires parsed.None? || !HasRequiredFields(parsed.value)
    ensures Normalize(reply, parsed)
            == Extracted(Idea("Planter", "Holds soil", NoData, NoData, NoData, NoData, NoData))
  {
    PlanterIdea(reply);
  }
}
