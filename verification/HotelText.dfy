/** What the hotel demo reads out of a text by looking for phrases (internal/app/bot/hotel_tools.go). */
module HotelText {
  import opened Text

  predicate LooksConfirmed(text: string) {
    || Contains(text, "已确认")
    || Contains(text, "预订成功")
    || Contains(text, "订好了")
    || Contains(text, "已为您预订")
    || Contains(text, "期待您光临")
  }

  /** What looks confirmed in part looks confirmed as a whole. */
  lemma PartLooksConfirmed(text: string, a: nat, b: nat)
    requires a <= b <= |text| && LooksConfirmed(text[a..b])
    ensures LooksConfirmed(text)
  {
    var part := text[a..b];
    if Contains(part, "已确认") {
      ContainedInSlice(text, a, b, "已确认");
    } else if Contains(part, "预订成功") {
      ContainedInSlice(text, a, b, "预订成功");
    } else if Contains(part, "订好了") {
      ContainedInSlice(text, a, b, "订好了");
    } else if Contains(part, "已为您预订") {
      ContainedInSlice(text, a, b, "已为您预订");
    } else {
      ContainedInSlice(text, a, b, "期待您光临");
    }
  }

  predicate LooksFarewell(input: string) {
    var text := TrimSpace(input);
    && text != ""
    && (|| Contains(text, "再见") || Contains(text, "拜拜")
        || Contains(text, "不用了") || Contains(text, "先这样") || Contains(text, "就这样")
        || ((Contains(text, "谢谢") || Contains(text, "感谢"))
            && (Contains(text, "没了") || Contains(text, "不用") || Contains(text, "再见"))))
  }

  predicate HasBookingIntent(text: string) {
    ContainsAny(text, "订预住") || Contains(text, "下单")
  }

  predicate HasGuestDetails(text: string) {
    || Contains(text, "姓名") || Contains(text, "名字") || Contains(text, "手机号")
    || Contains(text, "电话") || Contains(text, "号码")
  }

  predicate NeedsInventory(text: string) {
    ContainsAny(text, "房住订预库存还有几间姓名名字电话手机号码")
  }

  /** The pattern 1[3-9]\d{9}, anywhere. */
  predicate HasPhoneNumber(text: string) {
    exists i :: 0 <= i <= |text| - 11 && PhoneNumberAt(text, i)
  }

  predicate PhoneNumberAt(text: string, i: nat)
    requires i + 11 <= |text|
  {
    && text[i] == '1' && '3' <= text[i + 1] <= '9'
    && forall j | i + 2 <= j < i + 11 :: IsDigit(text[j])
  }

  // The phrases, told as lists.

  predicate Says(text: string, phrases: seq<string>) {
    exists k | 0 <= k < |phrases| :: Contains(text, phrases[k])
  }

  lemma TrimmedSays(text: string, phrases: seq<string>)
    requires forall k | 0 <= k < |phrases| ::
      phrases[k] != "" && forall i | 0 <= i < |phrases[k]| :: !IsSpace(phrases[k][i])
    ensures Says(TrimSpace(text), phrases) <==> Says(text, phrases)
  {
    forall k | 0 <= k < |phrases| ensures Contains(TrimSpace(text), phrases[k]) <==> Contains(text, phrases[k]) {
      TrimKeepsPhrase(text, phrases[k]);
    }
  }

  lemma ConfirmedExactly(text: string)
    ensures LooksConfirmed(text) <==> Says(text, ["已确认", "预订成功", "订好了", "已为您预订", "期待您光临"])
  {
    var phrases := ["已确认", "预订成功", "订好了", "已为您预订", "期待您光临"];
    assert phrases[0] == "已确认" && phrases[1] == "预订成功" && phrases[2] == "订好了" && phrases[3] == "已为您预订";
    assert phrases[4] == "期待您光临";
  }

  /** A farewell is said outright, or as thanks for nothing more. */
  predicate SaysFarewell(text: string) {
    || Says(text, ["再见", "拜拜", "不用了", "先这样", "就这样"])
    || (Says(text, ["谢谢", "感谢"]) && Says(text, ["没了", "不用", "再见"]))
  }

  lemma FarewellExactly(text: string)
    ensures LooksFarewell(text) <==> SaysFarewell(text)
  {
    var outright, thanks, more := ["再见", "拜拜", "不用了", "先这样", "就这样"], ["谢谢", "感谢"], ["没了", "不用", "再见"];
    TrimmedSays(text, outright);
    TrimmedSays(text, thanks);
    TrimmedSays(text, more);
    var trimmed := TrimSpace(text);
    assert Says(trimmed, outright) <==>
      || Contains(trimmed, outright[0]) || Contains(trimmed, outright[1]) || Contains(trimmed, outright[2])
      || Contains(trimmed, outright[3]) || Contains(trimmed, outright[4]);
    assert Says(trimmed, thanks) <==> Contains(trimmed, thanks[0]) || Contains(trimmed, thanks[1]);
    assert Says(trimmed, more) <==>
      Contains(trimmed, more[0]) || Contains(trimmed, more[1]) || Contains(trimmed, more[2]);
  }

  /** What makes a text want to book, name a guest, or ask about rooms. */
  lemma IntentsExactly(text: string)
    ensures HasBookingIntent(text) <==> '订' in text || '预' in text || '住' in text || Says(text, ["下单"])
    ensures HasGuestDetails(text) <==> Says(text, ["号码", "电话", "手机号", "名字", "姓名"])
    ensures NeedsInventory(text) <==> exists c :: c in text && c in [
      '房', '住', '订', '预', '库', '存', '还', '有', '几', '间', '姓', '名', '字', '电', '话', '手', '机', '号', '码']
  {
    assert Says(text, ["下单"]) <==> Contains(text, ["下单"][0]);
    var details := ["号码", "电话", "手机号", "名字", "姓名"];
    assert Says(text, details) <==>
      || Contains(text, details[0]) || Contains(text, details[1]) || Contains(text, details[2])
      || Contains(text, details[3]) || Contains(text, details[4]);
    var asked := "房住订预库存还有几间姓名名字电话手机号码";
    assert forall c :: c in asked <==> c in [
      '房', '住', '订', '预', '库', '存', '还', '有', '几', '间', '姓', '名', '字', '电', '话', '手', '机', '号', '码'];
    var wanted := "订预住";
    assert forall c :: c in wanted <==> c == '订' || c == '预' || c == '住';
  }

  /** A mobile number anywhere in a text is found: a one, then three to nine, then nine digits. */
  lemma PhoneNumberFound(a: string, number: string, b: string)
    requires |number| == 11 && number[0] == '1' && number[1] in "3456789"
    requires forall j | 2 <= j < 11 :: number[j] in "0123456789"
    ensures HasPhoneNumber(a + number + b)
  {
    var text := a + number + b;
    assert forall j | 0 <= j < 11 :: text[|a| + j] == number[j];
    assert PhoneNumberAt(text, |a|);
  }

  lemma PhoneNumberSplits(text: string) returns (a: string, number: string, b: string)
    requires HasPhoneNumber(text)
    ensures text == a + number + b && |number| == 11 && number[0] == '1' && number[1] in "3456789"
    ensures forall j | 2 <= j < 11 :: number[j] in "0123456789"
  {
    var i :| 0 <= i <= |text| - 11 && PhoneNumberAt(text, i);
    a, number, b := text[..i], text[i..i + 11], text[i + 11..];
    forall j | 2 <= j < 11 ensures number[j] in "0123456789" {
      DigitsAre(number[j]);
    }
    DigitsAre(number[1]);
  }

  lemma DigitsAre(c: char)
    ensures IsDigit(c) <==> c in "0123456789"
    ensures '3' <= c <= '9' <==> c in "3456789"
  {
  }

  // Texts that cannot look confirmed, told by pairs of runes.

  predicate Telltale(text: string, i: nat)
    requires i < |text|
  {
    || text[i] == '期'
    || (text[i] == '已' && i + 1 < |text| && (text[i + 1] == '确' || text[i + 1] == '为'))
    || (text[i] == '订' && i + 1 < |text| && (text[i + 1] == '好' || text[i + 1] == '成'))
  }

  predicate Guarded(text: string) {
    forall i | 0 <= i < |text| :: !Telltale(text, i)
  }

  lemma Absent(text: string, phrase: string, at: nat)
    requires Guarded(text)
    requires at < |phrase| && Telltale(phrase, at)
    ensures !Contains(text, phrase)
  {
    if Contains(text, phrase) {
      var i :| 0 <= i <= |text| - |phrase| && OccursAt(text, phrase, i);
      var found := text[i..i + |phrase|];
      assert text[i + at] == found[at];
      assert at + 1 < |phrase| ==> text[i + at + 1] == found[at + 1];
      assert Telltale(text, i + at);
    }
  }

  /** Every phrase of `LooksConfirmed` holds a telltale pair. */
  lemma GuardedDoesNotLookConfirmed(text: string)
    requires Guarded(text)
    ensures !LooksConfirmed(text)
  {
    Absent(text, "已确认", 0);
    Absent(text, "预订成功", 1);
    Absent(text, "订好了", 0);
    Absent(text, "已为您预订", 0);
    Absent(text, "期待您光临", 0);
  }

  lemma GuardedConcat(a: string, b: string)
    requires Guarded(a) && Guarded(b)
    requires a != "" ==> a[|a| - 1] != '已' && a[|a| - 1] != '订'
    ensures Guarded(a + b)
  {
    forall i | 0 <= i < |a + b| ensures !Telltale(a + b, i) {
      if i < |a| {
        assert !Telltale(a, i);
      } else {
        assert !Telltale(b, i - |a|);
      }
    }
  }
}
